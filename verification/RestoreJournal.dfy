/** The production restore: the restore journal, the pending key record and the secret state.

    The three are files of one directory, whose links, renames and unlinks become durable in
    their order: a power loss reveals one of the images since the last synchronisation.  The
    trail records every image the directory has gone through, so a property of the trail holds
    wherever the process may stop. */
module RestoreJournal {
  import opened Durability

  /** A backup, standing for its identity: the digest of its metadata, which fixes the key. */
  datatype Backup = Backup(key: nat, content: nat)

  datatype Secrets = Secrets(key: nat, others: nat)

  datatype KeyRestore = KeyRestore(previous: nat, next: nat)

  datatype Image = Image(journal: Option<Backup>, pending: Option<KeyRestore>, state: Option<Secrets>)

  /** A pending key record says which two keys the state may hold. */
  ghost predicate Coherent(i: Image) {
    i.pending.Some? ==>
      i.state.Some? && (i.state.value.key == i.pending.value.previous || i.state.value.key == i.pending.value.next)
  }

  /** What one change of the directory may do, whatever command makes it.  Secrets other than the
      key never change; the key changes only under a pending record and to one of its two keys; a
      record starts from the key in place and is not replaced; a journal is not replaced. */
  ghost predicate Allowed(before: Image, after: Image) {
    && Coherent(after)
    && (before.state.Some? ==> after.state.Some? && after.state.value.others == before.state.value.others)
    && (before.state.Some? && after.state.value.key != before.state.value.key ==>
          before.pending.Some? && before.pending == after.pending)
    && (before.pending.None? && after.pending.Some? ==>
          before.state.Some? && after.pending.value.previous == before.state.value.key)
    && (before.pending.Some? && after.pending.Some? ==> before.pending == after.pending)
    && (before.journal.Some? && after.journal.Some? ==> before.journal == after.journal)
    && (before.journal.Some? && after.journal.None? ==> after.pending.None?)
  }

  /** A journal is given up only with the key of its backup in place. */
  ghost predicate Proper(before: Image, after: Image) {
    before.journal.Some? && after.journal.None? ==>
      after.pending.None? && after.state.Some? && after.state.value.key == before.journal.value.key
  }

  /** A restore of this backup that stopped here can be taken up again. */
  ghost predicate Resumable(i: Image, backup: Backup) {
    i.journal == Some(backup) && i.state.Some? && (i.pending.Some? ==> i.pending.value.next == backup.key)
  }

  /** A stretch of directory changes without a crash. */
  ghost predicate History(h: seq<Image>) {
    h != [] && forall i :: 0 <= i < |h| - 1 ==> Allowed(h[i], h[i + 1])
  }

  /** Over any such stretch the other secrets stay, and a key that moved did so under a record. */
  lemma {:induction false} SecretsOutlast(h: seq<Image>)
    requires History(h) && h[0].state.Some?
    ensures
      var last := h[|h| - 1];
      && last.state.Some? && last.state.value.others == h[0].state.value.others
      && (last.state.value.key != h[0].state.value.key ==> exists i :: 0 <= i < |h| && h[i].pending.Some?)
    decreases |h|
  {
    if |h| > 1 {
      var rest := h[1..];
      assert forall i :: 0 <= i < |rest| ==> rest[i] == h[i + 1];
      assert Allowed(h[0], h[1]);
      SecretsOutlast(rest);
      if i :| 0 <= i < |rest| && rest[i].pending.Some? { assert h[i + 1].pending.Some?; }
    }
  }

  /** A stretch of proper changes that starts under a journal and ends without it has passed
      through an image with the key of that backup in place and nothing pending. */
  lemma {:induction false} JournalEndsWithItsKey(h: seq<Image>)
    requires History(h) && h[0].journal.Some? && h[|h| - 1].journal != h[0].journal
    requires forall i :: 0 <= i < |h| - 1 ==> Proper(h[i], h[i + 1])
    ensures exists i :: 0 < i < |h| && h[i].journal.None? && h[i].pending.None? &&
              h[i].state.Some? && h[i].state.value.key == h[0].journal.value.key
    decreases |h|
  {
    var rest := h[1..];
    assert forall i :: 0 <= i < |rest| ==> rest[i] == h[i + 1];
    assert Allowed(h[0], h[1]) && Proper(h[0], h[1]);
    if h[1].journal == h[0].journal {
      forall i | 0 <= i < |rest| - 1 ensures Proper(rest[i], rest[i + 1]) { assert Proper(h[i + 1], h[i + 2]); }
      JournalEndsWithItsKey(rest);
      var i :| 0 < i < |rest| && rest[i].journal.None? && rest[i].pending.None? &&
               rest[i].state.Some? && rest[i].state.value.key == rest[0].journal.value.key;
      assert h[i + 1] == rest[i];
    }
  }

  /** The trail from `floor` on is what a power loss may reveal.  `breaks` are the places where a
      crash set the directory back, each with the place of the image it revealed; all other steps
      of the trail are allowed changes. */
  ghost predicate Sound(images: seq<Image>, trail: seq<Image>, floor: nat, breaks: map<nat, nat>) {
    && floor < |trail| && images == trail[floor..]
    && (forall i :: 0 <= i < |trail| ==> Coherent(trail[i]))
    && (forall i :: 0 <= i < |trail| - 1 && i + 1 !in breaks ==> Allowed(trail[i], trail[i + 1]))
    && (forall b :: b in breaks ==> breaks[b] < b < |trail| && trail[b] == trail[breaks[b]])
  }

  lemma SoundMore(images: seq<Image>, trail: seq<Image>, floor: nat, breaks: map<nat, nat>, image: Image, synced: bool)
    requires Sound(images, trail, floor, breaks) && Allowed(trail[|trail| - 1], image)
    ensures
      var next := if synced then [image] else images + [image];
      Sound(next, trail + [image], if synced then |trail| else floor, breaks)
  {
    var next := trail + [image];
    assert next[|trail|] == image;
    assert forall i :: 0 <= i < |trail| ==> next[i] == trail[i];
  }

  lemma SoundAgain(images: seq<Image>, trail: seq<Image>, floor: nat, breaks: map<nat, nat>, k: nat)
    requires Sound(images, trail, floor, breaks) && k < |trail|
    ensures Sound([trail[k]], trail + [trail[k]], |trail|, breaks[|trail| := k])
  {
    var next := trail + [trail[k]];
    assert forall i :: 0 <= i < |trail| ==> next[i] == trail[i];
    assert next[|trail|] == trail[k];
  }

  /** Every crash since the trail had `n` images revealed one of those from `floor` on. */
  ghost predicate Since(floor: nat, n: nat, breaks: map<nat, nat>) {
    forall b :: b in breaks && b >= n ==> floor <= breaks[b]
  }

  /** A journal in every image that a power loss could reveal is lost by no crash, however often
      the process is set back: where it is gone, a command has removed it. */
  lemma {:induction false} JournalSurvives(images: seq<Image>, trail: seq<Image>, top: nat, breaks: map<nat, nat>,
                                           floor: nat, n: nat, m: nat, backup: Backup)
    requires Sound(images, trail, top, breaks) && floor < n <= m < |trail| && Since(floor, n, breaks)
    requires forall i :: floor <= i < n ==> trail[i].journal == Some(backup)
    requires trail[m].journal != Some(backup)
    ensures exists i :: n <= i <= m && i !in breaks && trail[i - 1].journal == Some(backup) && trail[i].journal.None?
    decreases m
  {
    if i :| n <= i < m && trail[i].journal != Some(backup) {
      JournalSurvives(images, trail, top, breaks, floor, n, i, backup);
    } else {
      assert trail[m - 1].journal == Some(backup);
      assert m !in breaks;
      assert Allowed(trail[m - 1], trail[m]);
    }
  }

  /** The same of a pending key record. */
  lemma {:induction false} RecordSurvives(images: seq<Image>, trail: seq<Image>, top: nat, breaks: map<nat, nat>,
                                          floor: nat, n: nat, m: nat, record: KeyRestore)
    requires Sound(images, trail, top, breaks) && floor < n <= m < |trail| && Since(floor, n, breaks)
    requires forall i :: floor <= i < n ==> trail[i].pending == Some(record)
    requires trail[m].pending != Some(record)
    ensures exists i :: n <= i <= m && i !in breaks && trail[i - 1].pending == Some(record) && trail[i].pending.None?
    decreases m
  {
    if i :| n <= i < m && trail[i].pending != Some(record) {
      RecordSurvives(images, trail, top, breaks, floor, n, i, record);
    } else {
      assert trail[m - 1].pending == Some(record);
      assert m !in breaks;
      assert Allowed(trail[m - 1], trail[m]);
    }
  }

  lemma Stretch(images: seq<Image>, trail: seq<Image>, floor: nat, breaks: map<nat, nat>, i: nat)
    requires Sound(images, trail, floor, breaks) && i < |trail| && forall b :: b in breaks ==> b <= i
    ensures History(trail[i..])
  {
    var t := trail[i..];
    forall k | 0 <= k < |t| - 1 ensures Allowed(t[k], t[k + 1]) {
      assert t[k] == trail[i + k] && t[k + 1] == trail[i + k + 1] && i + k + 1 !in breaks;
    }
  }

  /** Since any moment after the last crash: the other secrets are as they were, and the key
      moved only under a record. */
  lemma SinceThen(images: seq<Image>, trail: seq<Image>, floor: nat, breaks: map<nat, nat>, i: nat)
    requires Sound(images, trail, floor, breaks) && i < |trail| && (forall b :: b in breaks ==> b <= i)
    requires trail[i].state.Some?
    ensures
      var now := images[|images| - 1];
      && now.state.Some? && now.state.value.others == trail[i].state.value.others
      && (now.state.value.key != trail[i].state.value.key ==> exists k :: i <= k < |trail| && trail[k].pending.Some?)
  {
    Stretch(images, trail, floor, breaks, i);
    var t := trail[i..];
    assert forall k :: 0 <= k < |t| ==> t[k] == trail[i + k];
    SecretsOutlast(t);
  }

  /** From `from` on every change is proper. */
  ghost predicate AllProper(trail: seq<Image>, breaks: map<nat, nat>, from: nat) {
    forall i :: from <= i < |trail| - 1 && i + 1 !in breaks ==> Proper(trail[i], trail[i + 1])
  }

  /** A journal that stood at some moment after the last crash and is gone was given up with the
      key of its backup in place and nothing pending. */
  lemma GivenUpProperly(images: seq<Image>, trail: seq<Image>, floor: nat, breaks: map<nat, nat>, i: nat)
    requires Sound(images, trail, floor, breaks) && i < |trail| && (forall b :: b in breaks ==> b <= i)
    requires AllProper(trail, breaks, i) && trail[i].journal.Some? && images[|images| - 1].journal != trail[i].journal
    ensures exists k :: i < k < |trail| && trail[k].journal.None? && trail[k].pending.None? &&
              trail[k].state.Some? && trail[k].state.value.key == trail[i].journal.value.key
  {
    Stretch(images, trail, floor, breaks, i);
    var t := trail[i..];
    assert forall k :: 0 <= k < |t| ==> t[k] == trail[i + k];
    forall k | 0 <= k < |t| - 1 ensures Proper(t[k], t[k + 1]) {
      assert i + k + 1 !in breaks && Proper(trail[i + k], trail[i + k + 1]);
    }
    JournalEndsWithItsKey(t);
    var k :| 0 < k < |t| && t[k].journal.None? && t[k].pending.None? &&
             t[k].state.Some? && t[k].state.value.key == t[0].journal.value.key;
    assert trail[i + k] == t[k];
  }

  /** An image within a command that leaves the journal alone and restores at most this key. */
  ghost predicate Within(before: Image, i: Image, key: nat) {
    && i.journal == before.journal && (before.state.Some? ==> i.state.Some?)
    && (i.pending.None? || i.pending == before.pending || i.pending.value.next == key)
  }

  /** The trail grew by such images only. */
  ghost predicate Grew(old_: seq<Image>, trail: seq<Image>, before: Image, key: nat) {
    && |old_| <= |trail| && trail[..|old_|] == old_
    && forall i :: |old_| <= i < |trail| ==> Within(before, trail[i], key)
  }

  lemma GrewOn(a: seq<Image>, b: seq<Image>, c: seq<Image>, before: Image, between: Image, key: nat)
    requires Grew(a, b, before, key) && Grew(b, c, between, key) && Within(before, between, key)
    ensures Grew(a, c, before, key)
  {
    assert c[..|a|] == b[..|a|];
    forall i | |a| <= i < |c| ensures Within(before, c[i], key) {
      if i < |b| { assert c[i] == b[i]; }
    }
  }

  /** The runtime secrets follow the state, or a record is pending, or nothing moved. */
  predicate Tidy(before: Image, were: Option<Secrets>, after: Image, are: Option<Secrets>) {
    || are == after.state || after.pending.Some?
    || (are == were && after.state == before.state && after.pending == before.pending)
  }

  /** A target that may be initialised: nothing is under way, and secrets exist or may be generated. */
  predicate Fresh(i: Image, database: bool, outputs: Option<Secrets>) {
    i.journal.None? && i.pending.None? && (i.state.Some? || (!database && outputs.None?))
  }

  // ---------- What a restore adds to the trail ----------

  /** Every image is without a journal or resumable, and every change is proper; an image that
      was not resumable to begin with is left with its journal. */
  ghost predicate Restored(start: seq<Image>, trail: seq<Image>, first: Image, backup: Backup) {
    && start != [] && |start| <= |trail| && trail[..|start|] == start && start[|start| - 1] == first
    && (forall i :: |start| - 1 <= i < |trail| - 1 ==> Proper(trail[i], trail[i + 1]))
    && (first.journal.None? || Resumable(first, backup) ==>
          forall i :: |start| <= i < |trail| ==> trail[i].journal.None? || Resumable(trail[i], backup))
  }

  lemma NothingYet(trail: seq<Image>, first: Image, backup: Backup)
    requires trail != [] && trail[|trail| - 1] == first
    ensures Restored(trail, trail, first, backup)
  {
  }

  /** A command that leaves the journal alone and restores at most the key of the backup. */
  lemma Continues(start: seq<Image>, between: seq<Image>, trail: seq<Image>, first: Image, middle: Image,
                  backup: Backup, key: nat)
    requires Restored(start, between, first, backup) && between[|between| - 1] == middle
    requires Grew(between, trail, middle, key) && (middle.journal.None? || key == backup.key)
    ensures Restored(start, trail, first, backup)
  {
    assert trail[..|start|] == between[..|start|];
    assert forall i :: 0 <= i < |between| ==> trail[i] == between[i];
    forall i | |start| - 1 <= i < |trail| - 1 ensures Proper(trail[i], trail[i + 1]) {
      if i + 1 >= |between| { assert i >= |between| ==> Within(middle, trail[i], key); }
    }
  }

  /** The journal is begun over a state with nothing pending, or not at all. */
  lemma Journalled(start: seq<Image>, between: seq<Image>, trail: seq<Image>, first: Image, middle: Image,
                   backup: Backup)
    requires Restored(start, between, first, backup) && between[|between| - 1] == middle
    requires trail != between ==>
      && middle.journal.None? && middle.state.Some? && middle.pending.None?
      && trail == between + [middle.(journal := Some(backup))]
    ensures Restored(start, trail, first, backup)
  {
    assert trail[..|start|] == between[..|start|];
    assert forall i :: 0 <= i < |between| ==> trail[i] == between[i];
  }

  /** The journal is given up with its key in place, or not at all. */
  lemma GivenUp(start: seq<Image>, between: seq<Image>, trail: seq<Image>, first: Image, middle: Image, backup: Backup)
    requires Restored(start, between, first, backup) && between[|between| - 1] == middle
    requires trail != between ==>
      && middle.journal == Some(backup) && middle.pending.None? && middle.state.Some?
      && middle.state.value.key == backup.key
      && trail == between + [middle.(journal := None)]
    ensures Restored(start, trail, first, backup)
  {
    assert trail[..|start|] == between[..|start|];
    assert forall i :: 0 <= i < |between| ==> trail[i] == between[i];
  }

  /** From `bottom` on the directory is without a journal, or the restore can be resumed. */
  ghost predicate Along(trail: seq<Image>, bottom: nat, backup: Backup) {
    forall i :: bottom <= i < |trail| ==> trail[i].journal.None? || Resumable(trail[i], backup)
  }

  lemma Trivial(trail: seq<Image>, breaks: map<nat, nat>, start: nat)
    requires start == |trail| - 1
    ensures AllProper(trail, breaks, start)
  {
  }

  /** A command at the end of a trail of such images. */
  lemma Extends(before: seq<Image>, trail: seq<Image>, breaks: map<nat, nat>, start: nat, bottom: nat, was: Image,
                backup: Backup)
    requires Restored(before, trail, was, backup) && start < |before| && bottom < |before|
    requires Along(before, bottom, backup) && AllProper(before, breaks, start)
    ensures Along(trail, bottom, backup) && AllProper(trail, breaks, start)
  {
    assert forall i :: 0 <= i < |before| ==> trail[i] == before[i];
    assert before[|before| - 1] == was;
  }

  /** A crash to an image of such a trail. */
  lemma SetBack(before: seq<Image>, breaks: map<nat, nat>, start: nat, bottom: nat, n: nat, k: nat, backup: Backup)
    requires start < |before| && bottom <= k < |before|
    requires Along(before, bottom, backup) && AllProper(before, breaks, start) && Since(bottom, n, breaks)
    ensures
      var trail, more := before + [before[k]], breaks[|before| := k];
      Along(trail, bottom, backup) && AllProper(trail, more, start) && Since(bottom, n, more)
  {
    var trail := before + [before[k]];
    assert forall i :: 0 <= i < |before| ==> trail[i] == before[i];
  }

  class RestoreTarget {
    var images: seq<Image>
    var outputs: Option<Secrets>
    /** In calm weather no call fails and no operator interferes. */
    const calm: bool
    var trail: seq<Image>
    var floor: nat
    ghost var breaks: map<nat, nat>
    /** Writes that did not go through so far. */
    ghost var faults: nat

    ghost predicate Valid()
      reads this
    {
      && images != [] && trail != [] && trail[|trail| - 1] == images[|images| - 1]
      && Sound(images, trail, floor, breaks)
    }

    /** Without a crash the trail grows, and what was synchronised stays so. */
    twostate predicate Onward()
      reads this
    {
      breaks == old(breaks) && floor >= old(floor) && old(trail) <= trail && old(faults) <= faults
    }

    function Now(): (i: Image)
      requires images != []
      reads this
    {
      images[|images| - 1]
    }

    constructor (start: Image, calm: bool)
      requires Coherent(start)
      ensures Valid() && Now() == start && trail == [start] && floor == 0 && breaks == map[] && this.calm == calm
    {
      this.calm := calm;
      images, outputs, trail, floor, breaks, faults := [start], None, [start], 0, map[], 0;
    }

    /** A link, rename or unlink followed by a synchronisation of the directory. */
    method Put(image: Image) returns (outcome: Outcome)
      requires Valid() && Allowed(Now(), image)
      modifies this`images, this`trail, this`floor, this`faults
      ensures Valid() && Onward()
      ensures Now() == if outcome == Lost then old(Now()) else image
      ensures outcome == Done ==> images == [image]
      ensures calm ==> outcome == Done
      ensures outcome == Lost ==> images == old(images) && trail == old(trail)
      ensures outcome != Lost ==> trail == old(trail) + [image]
      ensures faults == old(faults) + if outcome == Done then 0 else 1
    {
      assert floor < |trail|;
      hide Sound, Allowed;
      outcome := *;
      if calm { outcome := Done; }
      if outcome != Done { faults := faults + 1; }
      if outcome != Lost {
        SoundMore(images, trail, floor, breaks, image, outcome == Done);
        floor := if outcome == Done then |trail| else floor;
        trail := trail + [image];
        images := if outcome == Done then [image] else images + [image];
      }
    }

    /** `materializeCurrentState`: write the runtime secrets until they match the state that is
        persisted by then, at most eight times.  Unless it is `alone`, other commands may run
        beside it and change the state, which is what the attempts are for. */
    method Materialize(wanted: Secrets, alone: bool) returns (ok: bool)
      requires Valid()
      modifies this
      ensures Valid() && Onward()
      ensures ok ==> Now().state.Some? && (outputs == Now().state || Now().pending.Some?)
      ensures alone ==> images == old(images) && trail == old(trail) && (ok ==> outputs == Now().state)
      ensures alone && calm && Now().state == Some(wanted) ==> ok
      ensures alone && Now().state == Some(wanted) ==> faults == old(faults) + if ok then 0 else 1
      // Beside others it gives up for a fault, for a lost state, or after eight states in a row.
      ensures !ok ==> old(faults) < faults || Now().state.None? || |trail| >= |old(trail)| + 7
      decreases if alone then 0 else 4
    {
      hide Sound;
      var desired := wanted;
      var attempt := 0;
      while attempt < 8
        invariant Valid() && attempt <= 8 && Onward()
        invariant alone ==> images == old(images) && trail == old(trail)
        invariant alone && Now().state == Some(wanted) ==> attempt == 0 && desired == wanted
        invariant old(faults) <= faults && (alone ==> faults == old(faults))
        invariant attempt > 0 ==> Now().state == Some(desired) && |trail| >= |old(trail)| + attempt - 1
      {
        var written := *;
        if !written && !calm {
          outputs := *;
          faults := faults + 1;
          return false;
        }
        outputs := Some(desired);
        if !alone { Rivals(); }
        if Now().state.None? { return false; }
        if Now().state.value == desired { return true; }
        desired := Now().state.value;
        attempt := attempt + 1;
      }
      return false;
    }

    /** Any commands of other processes.  Each of them ends with the runtime secrets materialised,
        with its record still pending, or with nothing changed that they depend on. */
    method Rivals()
      requires Valid()
      modifies this
      ensures Valid() && Onward()
      ensures Tidy(old(Now()), old(outputs), Now(), outputs)
      decreases 3
    {
      hide Sound;
      var commands: int := *;
      while commands > 0
        invariant Valid() && Onward() && Tidy(old(Now()), old(outputs), Now(), outputs)
      {
        var choice: int := *;
        var key: int, backup: Backup, resume: bool := *, *, *;
        if choice == 0 && key >= 0 {
          var staged := BeginKey(key);
        } else if choice == 1 {
          var completed := CompleteKey();
        } else if choice == 2 {
          var undone := RollbackKey();
        } else if choice == 3 {
          var begun := BeginProduction(backup, resume);
        } else if choice == 4 {
          var ended := CompleteProduction(backup);
        }
        commands := commands - 1;
      }
    }

    /** `initializeSecrets`: refused at once while a restore is journalled or a key is pending. */
    method Initialize(database: bool, generated: Secrets, alone: bool) returns (ok: bool)
      requires Valid()
      modifies this
      ensures Valid() && Onward()
      ensures old(Now()).journal.Some? || old(Now()).pending.Some? ==>
                !ok && images == old(images) && trail == old(trail) && outputs == old(outputs)
      ensures ok ==> Now().state.Some? && Now().pending.None?
      ensures ok ==> outputs == Now().state
      ensures old(Now()).state.None? && (database || old(outputs).Some?) ==> !ok && images == old(images)
      ensures alone ==> Grew(old(trail), trail, old(Now()), 0) && Within(old(Now()), Now(), 0)
      ensures alone && calm ==> (ok <==> Fresh(old(Now()), database, old(outputs)))
      ensures old(Now()).state.Some? && alone ==> Now() == old(Now())
    {
      hide Sound;
      if Now().journal.Some? || Now().pending.Some? { return false; }
      var state := Now().state;
      if state.None? {
        if database || outputs.Some? { return false; }
        var outcome := Put(Now().(state := Some(generated)));
        state := Now().state;
        if state.None? { return false; }
      }
      ok := Materialize(state.value, alone);
      ok := ok && Now().pending.None?;
    }

    /** `exportAppEncryptionKey`. */
    method ExportKey() returns (key: Option<nat>)
      requires Valid()
      ensures key.Some? ==>
        Now().journal.None? && Now().pending.None? && Now().state.Some? && key.value == Now().state.value.key
      ensures calm ==> (key.Some? <==> Now().journal.None? && Now().pending.None? && Now().state.Some?)
    {
      if Now().journal.Some? || Now().pending.Some? || Now().state.None? { return None; }
      var written := *;
      key := if written || calm then Some(Now().state.value.key) else None;
    }

    /** `beginProductionRestore`: a new journal, or the same backup resumed. */
    method BeginProduction(backup: Backup, resume: bool) returns (ok: bool)
      requires Valid()
      modifies this`images, this`trail, this`floor, this`faults
      ensures Valid() && Onward()
      ensures ok ==> Now().journal == Some(backup) && (resume <==> old(Now()).journal == Some(backup))
      ensures calm ==> (ok <==> old(Now()).journal == if resume then Some(backup) else None)
      ensures Now() == old(Now()) || (old(Now()).journal.None? && Now() == old(Now()).(journal := Some(backup)))
      ensures trail == old(trail) ||
              (old(Now()).journal.None? && trail == old(trail) + [old(Now()).(journal := Some(backup))])
      ensures images == old(images) || trail != old(trail)
      decreases 0
    {
      assert Coherent(Now());
      hide Sound;
      var paused := *;
      if Now().journal.Some? {
        if !resume || Now().journal.value != backup { return false; }
        return paused || calm;
      }
      if resume { return false; }
      var outcome := Put(Now().(journal := Some(backup)));
      ok := outcome == Done && (paused || calm);
    }

    /** `rollbackPendingAppKeyRestore`: the previous key, then no record. */
    method RollbackPending() returns (ok: bool)
      requires Valid() && Now().pending.Some?
      modifies this
      ensures Valid() && Onward() && Now().journal == old(Now()).journal && Now().state.Some?
      ensures ok ==> Now().pending.None? && Now().state.value.key == old(Now()).pending.value.previous
      ensures (ok ==> outputs == Now().state) && (calm ==> ok) && (ok <==> faults == old(faults))
      ensures old(Now()).state.Some?
      ensures Now().state.value.others == old(Now()).state.value.others
      ensures Now().pending == old(Now()).pending || Now().pending.None?
      ensures forall key :: Grew(old(trail), trail, old(Now()), key)
      ensures Tidy(old(Now()), old(outputs), Now(), outputs)
      decreases 1
    {
      assert Coherent(Now());
      hide Sound;
      var record := Now().pending.value;
      var restored := Now().state.value.(key := record.previous);
      var outcome := Put(Now().(state := Some(restored)));
      if outcome != Done { return false; }
      var same := Materialize(restored, true);
      if !same { return false; }
      outcome := Put(Now().(pending := None));
      ok := outcome == Done;
    }

    /** `beginAppEncryptionKeyRestore`: record first, then the new key; a failed swap is rolled
        back.  A record that is already there is taken up only under a journal and for its key. */
    method BeginKey(key: nat) returns (ok: bool)
      requires Valid()
      modifies this
      ensures Valid() && Onward() && Now().journal == old(Now()).journal
      ensures ok ==>
        Now().pending.Some? && Now().pending.value.next == key && Now().state.Some? && Now().state.value.key == key
      ensures ok && old(Now()).pending.Some? ==> old(Now()).journal.Some? && Now().pending == old(Now()).pending
      ensures old(Now()).state.None? ==> !ok && images == old(images)
      ensures old(Now()).pending.Some? && (old(Now()).journal.None? || old(Now()).pending.value.next != key) ==>
                !ok && images == old(images)
      ensures Grew(old(trail), trail, old(Now()), key) && Within(old(Now()), Now(), key)
      ensures
        var was := old(Now());
        calm ==>
          (ok <==> was.state.Some? && (was.pending.None? || (was.journal.Some? && was.pending.value.next == key)))
      ensures Tidy(old(Now()), old(outputs), Now(), outputs)
      // A swap that failed is undone unless that fails too.
      ensures !ok && old(Now()).pending.None? && faults <= old(faults) + 1 ==> Now().state == old(Now()).state
      decreases 2
    {
      hide Sound;
      var readable := *;
      if (!readable && !calm) || Now().state.None? { return false; }
      var state := Now().state.value;
      if Now().pending.Some? {
        if Now().journal.None? || Now().pending.value.next != key { return false; }
        ok := Swap(key);
        return;
      }
      var outcome := Put(Now().(pending := Some(KeyRestore(state.key, key))));
      if outcome != Done { return false; }
      ghost var between, middle := trail, Now();
      ok := Swap(key);
      GrewOn(old(trail), between, trail, old(Now()), middle, key);
      if !ok {
        between, middle := trail, Now();
        var undone := RollbackPending();
        GrewOn(old(trail), between, trail, old(Now()), middle, key);
      }
    }

    method Swap(key: nat) returns (ok: bool)
      requires Valid() && Now().pending.Some? && Now().pending.value.next == key && Now().state.Some?
      modifies this
      ensures Valid() && Onward()
      ensures Now().journal == old(Now()).journal && Now().pending == old(Now()).pending && Now().state.Some?
      ensures ok ==> Now().state.value.key == key
      ensures calm ==> ok
      ensures ok <==> faults == old(faults)
      ensures Now().state.value.others == old(Now()).state.value.others
      ensures Grew(old(trail), trail, old(Now()), key)
      decreases 1
    {
      hide Sound;
      var swapped := Now().state.value.(key := key);
      var outcome := Put(Now().(state := Some(swapped)));
      if outcome != Done { return false; }
      ok := Materialize(swapped, true);
    }

    /** `completeAppEncryptionKeyRestore`: only with the new key in place. */
    method CompleteKey() returns (ok: bool)
      requires Valid()
      modifies this
      ensures Valid() && Onward()
      ensures Now().journal == old(Now()).journal && Now().state == old(Now()).state
      ensures ok ==> && old(Now()).pending.Some? && Now().pending.None? && Now().state.Some?
                     && Now().state.value.key == old(Now()).pending.value.next && outputs == Now().state
      ensures forall key :: Grew(old(trail), trail, old(Now()), key)
      ensures
        var was := old(Now());
        calm ==> (ok <==> was.pending.Some? && was.state.Some? && was.state.value.key == was.pending.value.next)
      ensures Tidy(old(Now()), old(outputs), Now(), outputs)
      decreases 1
    {
      hide Sound;
      if Now().pending.None? || Now().state.None? || Now().state.value.key != Now().pending.value.next { return false; }
      var same := Materialize(Now().state.value, true);
      if !same { return false; }
      var outcome := Put(Now().(pending := None));
      ok := outcome == Done;
    }

    /** `rollbackAppEncryptionKeyRestore`, an operator's command. */
    method RollbackKey() returns (ok: bool)
      requires Valid()
      modifies this
      ensures Valid() && Onward() && Now().journal == old(Now()).journal
      ensures old(Now()).state.Some? ==> Now().state.Some?
      ensures ok ==> old(Now()).pending.Some? && Now().pending.None? && outputs == Now().state
      ensures ok ==> Now().state.Some? && Now().state.value.key == old(Now()).pending.value.previous
      ensures calm ==> (ok <==> old(Now()).pending.Some?)
      ensures old(Now()).pending.None? ==> !ok && images == old(images) && trail == old(trail)
      ensures Now().pending.None? || Now().pending == old(Now()).pending
      ensures forall key :: Grew(old(trail), trail, old(Now()), key)
      ensures Tidy(old(Now()), old(outputs), Now(), outputs)
      decreases 2
    {
      hide Sound;
      if Now().pending.None? { return false; }
      ok := RollbackPending();
    }

    /** `completeProductionRestore`: the journal of this backup goes unless a key is pending. */
    method CompleteProduction(backup: Backup) returns (ok: bool)
      requires Valid()
      modifies this`images, this`trail, this`floor, this`faults
      ensures Valid() && Onward()
      ensures ok ==>
          && old(Now()).journal == Some(backup) && Now() == old(Now()).(journal := None) && Now().pending.None?
                     && images == [Now()]
      ensures calm ==> (ok <==> old(Now()).journal == Some(backup) && old(Now()).pending.None?)
      ensures Now() == old(Now()) || Now() == old(Now()).(journal := None)
      ensures trail == old(trail) ||
        (old(Now()).journal == Some(backup) && old(Now()).pending.None? &&
            trail == old(trail) + [old(Now()).(journal := None)])
      ensures images == old(images) || trail != old(trail)
      decreases 0
    {
      hide Sound;
      if Now().journal != Some(backup) || Now().pending.Some? { return false; }
      var outcome := Put(Now().(journal := None));
      ok := outcome == Done;
    }

    /** Beside a restore, start-ups and exports may be attempted and an operator may roll back. */
    method Meanwhile()
      requires Valid() && Now().journal.Some?
      modifies this
      ensures Valid() && Onward()
      ensures old(Now()).pending.None? ==> Now() == old(Now())
      ensures Now().pending.None? || Now().pending == old(Now()).pending
      ensures calm ==> Now() == old(Now())
      ensures forall key :: Grew(old(trail), trail, old(Now()), key) && Within(old(Now()), Now(), key)
    {
      hide Sound;
      var steps: int := *;
      while steps > 0
        invariant Valid() && Onward() && Now().journal == old(Now()).journal
        invariant old(Now()).pending.None? ==> Now() == old(Now())
        invariant Now().pending.None? || Now().pending == old(Now()).pending
        invariant calm ==> Now() == old(Now())
        invariant forall key :: Grew(old(trail), trail, old(Now()), key) && Within(old(Now()), Now(), key)
      {
        var choice: int := *;
        if choice == 0 {
          var database, generated, alone := *, *, *;
          var started := Initialize(database, generated, alone);
          assert !started;
        } else if choice == 1 {
          var exported := ExportKey();
          assert exported == None;
        } else if !calm {
          ghost var between, middle := trail, Now();
          var undone := RollbackKey();
          forall key: nat ensures Grew(old(trail), trail, old(Now()), key) && Within(old(Now()), Now(), key) {
            assert Within(old(Now()), middle, key);
            GrewOn(old(trail), between, trail, old(Now()), middle, key);
          }
        }
        steps := steps - 1;
      }
    }

    /** `restore`: the whole sequence.  It may end after any of its steps; wherever it did, the
        same backup can be resumed, and the journal goes only with its key in place. */
    method Restore(backup: Backup, resume: bool, database: bool, generated: Secrets) returns (ok: bool)
      requires Valid()
      modifies this
      ensures Valid() && Onward()
      ensures ok ==> && Now().journal.None? && Now().pending.None?
                     && Now().state.Some? && Now().state.value.key == backup.key
      ensures old(Now()).journal.Some? && (!resume || old(Now()).journal.value != backup) ==>
                !ok && images == old(images) && outputs == old(outputs)
      ensures calm ==>
        (ok <==> if resume then Resumable(old(Now()), backup) else Fresh(old(Now()), database, old(outputs)))
      ensures Restored(old(trail), trail, old(Now()), backup)
    {
      hide Sound;
      NothingYet(trail, Now(), backup);
      var found := Now().journal;
      if found.Some? && (!resume || found.value != backup) { return false; }
      if found.None? && resume { return false; }
      if found.None? {
        var ready := Initialize(database, generated, true);
        Continues(old(trail), old(trail), trail, old(Now()), old(Now()), backup, 0);
        if !ready { return false; }
      }
      ghost var between, middle := trail, Now();
      var begun := BeginProduction(backup, resume);
      Journalled(old(trail), between, trail, old(Now()), middle, backup);
      if !begun { return false; }
      ok := Carry(backup, old(trail), old(Now()));
    }

    /** The restore under its journal. */
    method Carry(backup: Backup, ghost start: seq<Image>, ghost first: Image) returns (ok: bool)
      requires Valid() && Now().journal == Some(backup) && Restored(start, trail, first, backup)
      requires first.journal.None? ==> Resumable(Now(), backup)
      requires first.journal.Some? ==> first == Now() && trail == start
      modifies this
      ensures Valid() && Onward()
      ensures ok ==> && Now().journal.None? && Now().pending.None?
                     && Now().state.Some? && Now().state.value.key == backup.key
      ensures calm ==> (ok <==> Resumable(old(Now()), backup))
      ensures Restored(start, trail, first, backup)
    {
      hide Sound;
      ghost var between, middle := trail, Now();
      Meanwhile();
      Continues(start, between, trail, first, middle, backup, backup.key);
      between, middle := trail, Now();
      var staged := BeginKey(backup.key);
      Continues(start, between, trail, first, middle, backup, backup.key);
      if !staged { return false; }
      ok := Finish(backup, start, first);
    }

    /** The database, the controller and the bouncer are restored, then both records closed. */
    method Finish(backup: Backup, ghost start: seq<Image>, ghost first: Image) returns (ok: bool)
      requires Valid() && Resumable(Now(), backup) && Now().pending.Some? && Now().state.value.key == backup.key
      requires Restored(start, trail, first, backup)
      modifies this
      ensures Valid() && Onward()
      ensures ok ==> && Now().journal.None? && Now().pending.None?
                     && Now().state.Some? && Now().state.value.key == backup.key
      ensures calm ==> ok
      ensures Restored(start, trail, first, backup)
    {
      hide Sound;
      var restored := *;
      if !restored && !calm { return false; }
      ghost var between, middle := trail, Now();
      Meanwhile();
      Continues(start, between, trail, first, middle, backup, backup.key);
      between, middle := trail, Now();
      var completed := CompleteKey();
      Continues(start, between, trail, first, middle, backup, backup.key);
      if !completed { return false; }
      between, middle := trail, Now();
      Meanwhile();
      Continues(start, between, trail, first, middle, backup, backup.key);
      between, middle := trail, Now();
      ok := CompleteProduction(backup);
      GivenUp(start, between, trail, first, middle, backup);
    }

    /** A crash at any point of an operation that began with `from` as its floor, with or without a
        power loss: the directory is found as an image that could be revealed at that point. */
    method Crash(k: nat, from: nat)
      requires Valid() && from <= k < |trail|
      modifies this
      ensures Valid() && images == [old(trail)[k]] && floor == |old(trail)|
      ensures trail == old(trail) + [old(trail)[k]] && breaks == old(breaks)[|old(trail)| := k]
    {
      hide Sound;
      SoundAgain(images, trail, floor, breaks, k);
      breaks, floor := breaks[|trail| := k], |trail|;
      images, trail := [trail[k]], trail + [trail[k]];
      outputs := *;
    }

    /** One command on the way to restoring a backup. */
    method Attempt(backup: Backup)
      requires Valid()
      modifies this
      ensures Valid() && Onward() && Restored(old(trail), trail, old(Now()), backup)
    {
      hide Sound;
      var choice: int, resume: bool := *, *;
      NothingYet(trail, Now(), backup);
      if choice == 0 {
        var database, generated := *, *;
        var done := Restore(backup, resume, database, generated);
      } else if choice == 1 {
        var database, generated := *, *;
        var started := Initialize(database, generated, true);
        if old(Now()).journal.None? { Continues(old(trail), old(trail), trail, old(Now()), old(Now()), backup, 0); }
      } else if choice == 2 {
        var exported := ExportKey();
      } else {
        var undone := RollbackKey();
        Continues(old(trail), old(trail), trail, old(Now()), old(Now()), backup, backup.key);
      }
    }

    /** The restore of one backup, crashed anywhere and resumed, with start-ups, exports and
        rollbacks in between: at every moment the directory is without a journal or the restore
        can be resumed, and the journal goes only with the key of the backup in place. */
    method Campaign(backup: Backup)
      requires Valid()
      requires forall i :: 0 <= i < |images| ==> images[i].journal.None? || Resumable(images[i], backup)
      modifies this
      ensures Valid() && old(trail) <= trail && Since(old(floor), |old(trail)|, breaks)
      ensures Along(trail, old(floor), backup) && AllProper(trail, breaks, |old(trail)| - 1)
    {
      BreaksBefore();
      assert Along(trail, floor, backup);
      hide Sound, Along, Since, AllProper;
      ghost var start, bottom := |trail| - 1, floor;
      Trivial(trail, breaks, start);
      var rounds: int := *;
      while rounds > 0
        invariant Valid() && old(trail) <= trail && bottom <= floor && start < |trail|
        invariant Since(bottom, |old(trail)|, breaks)
        invariant Along(trail, bottom, backup) && AllProper(trail, breaks, start)
      {
        ghost var before, was := trail, Now();
        var from := floor;
        Attempt(backup);
        Extends(before, trail, breaks, start, bottom, was, backup);
        var k: int := *;
        if from <= k < |trail| {
          SetBack(trail, breaks, start, bottom, |old(trail)|, k, backup);
          Crash(k, from);
        }
        rounds := rounds - 1;
      }
    }

    /** Any sequence of commands and restores of any backups, each of which a crash may stop and
        set back to an image that could be revealed: every image stays coherent, every change
        allowed, and nothing comes back from before the last synchronisation. */
    method Run()
      requires Valid()
      modifies this
      ensures Valid() && old(trail) <= trail && Since(old(floor), |old(trail)|, breaks)
    {
      hide Sound;
      BreaksBefore();
      var steps: int := *;
      while steps > 0
        invariant Valid() && old(trail) <= trail && old(floor) <= floor && Since(old(floor), |old(trail)|, breaks)
      {
        var from := floor;
        var choice: int, backup: Backup, resume: bool, key: int := *, *, *, *;
        if choice == 0 {
          var database, generated := *, *;
          var restored := Restore(backup, resume, database, generated);
        } else if choice == 1 {
          var database, generated, alone := *, *, *;
          var started := Initialize(database, generated, alone);
        } else if choice == 2 && key >= 0 {
          var staged := BeginKey(key);
        } else if choice == 3 {
          var undone := RollbackKey();
        } else if choice == 4 {
          var completed := CompleteKey();
        } else if choice == 5 {
          var begun := BeginProduction(backup, resume);
        } else if choice == 6 {
          var ended := CompleteProduction(backup);
        }
        var k: int := *;
        if from <= k < |trail| { Crash(k, from); }
        steps := steps - 1;
      }
    }

    lemma BreaksBefore()
      requires Valid()
      ensures Since(floor, |trail|, breaks)
    {
    }
  }
}
