/** Sealed result bundles, their pins and their expiry: what may vanish, and what always verifies. */
module Retention {
  import opened Outcomes

  type Id = nat

  const DAY: nat := 86_400

  /** What a stored file is, as far as a digest can tell. */
  datatype Content = Content(sha: nat, size: nat)

  datatype FileRow = FileRow(artifact: Id, content: Content, required: bool)

  /** Pins by reference; a pin without an end never ends. */
  type Pins = map<Id, Option<nat>>

  datatype Artifact = Artifact(
    bundle: Option<Id>, content: Content, required: bool, expires: nat, expired: Option<nat>, pins: Pins)

  datatype Bundle = Bundle(
    manifest: FileRow, files: seq<FileRow>, expires: nat, expired: Option<nat>, pins: Pins,
    normal: bool, corrupt: bool, runEnded: bool)

  /** The record of a file that was removed. */
  datatype Expiry = Expiry(content: Content, scheduled: nat, at: nat)

  datatype Failure = CORRUPTED | EXPIRED | RESTRICTED

  predicate Pinned(pins: Pins, now: nat) {
    exists ref | ref in pins :: pins[ref].None? || pins[ref].value > now
  }

  /** The bundle is within its time or held by a live pin. */
  predicate Alive(b: Bundle, now: nat) {
    b.expired.None? && (b.expires > now || Pinned(b.pins, now))
  }

  lemma DeadStaysDead(b: Bundle, now: nat, later: nat)
    requires now <= later && !Alive(b, now)
    ensures !Alive(b, later)
  {
    if Pinned(b.pins, later) {
      var ref :| ref in b.pins && (b.pins[ref].None? || b.pins[ref].value > later);
      assert Pinned(b.pins, now);
    }
  }

  /** The rows and files of the archive at one time. */
  datatype Shelf = Shelf(
    clock: nat, bundles: map<Id, Bundle>, artifacts: map<Id, Artifact>, store: map<Id, Content>, expiries: map<Id,
      Expiry>)

  predicate Readable(s: Shelf, a: Id, content: Content) {
    a in s.store && s.store[a] == content
  }

  /** The file is in place, or it was removed on schedule and recorded; a required file outlives its bundle. */
  predicate ArtifactFits(s: Shelf, a: Id) {
    a in s.artifacts ==>
      var artifact := s.artifacts[a];
      && (artifact.expired.None? ==> Readable(s, a, artifact.content))
      && (artifact.expired.Some? ==>
            && a in s.expiries && s.expiries[a] == Expiry(artifact.content, artifact.expires, artifact.expired.value)
            && artifact.expires <= artifact.expired.value)
      && (artifact.bundle.Some? ==>
            && artifact.bundle.value in s.bundles
            && (artifact.required ==> artifact.expires == s.bundles[artifact.bundle.value].expires)
            && (artifact.required && artifact.expired.Some? ==> !Alive(s.bundles[artifact.bundle.value], s.clock)))
  }

  predicate RowFits(s: Shelf, b: Id, row: FileRow) {
    && row.artifact in s.artifacts
    && s.artifacts[row.artifact].bundle == Some(b)
    && s.artifacts[row.artifact].content == row.content && s.artifacts[row.artifact].required == row.required
  }

  predicate BundleFits(s: Shelf, b: Id) {
    b in s.bundles ==>
      && !s.bundles[b].corrupt
      && s.bundles[b].manifest.required && RowFits(s, b, s.bundles[b].manifest)
      && forall i | 0 <= i < |s.bundles[b].files| :: RowFits(s, b, s.bundles[b].files[i])
  }

  ghost predicate Sealed(s: Shelf) {
    && (forall a {:trigger ArtifactFits(s, a)} :: ArtifactFits(s, a))
    && (forall b {:trigger BundleFits(s, b)} :: BundleFits(s, b))
  }

  /** One row of a manifest still holds: the file is there, or it is optional and its removal is on record. */
  predicate RowVerifies(s: Shelf, b: Id, row: FileRow) {
    && RowFits(s, b, row)
    && (if s.artifacts[row.artifact].expired.Some? && !row.required
        then row.artifact in s.expiries && s.expiries[row.artifact].content == row.content
             && s.expiries[row.artifact].scheduled == s.artifacts[row.artifact].expires
             && s.expiries[row.artifact].at >= s.artifacts[row.artifact].expires
        else Readable(s, row.artifact, row.content))
  }

  /** What verification says, in the order of its checks. */
  function Verdict(s: Shelf, b: Id): Option<Failure>
    requires b in s.bundles
  {
    var bundle := s.bundles[b];
    if bundle.corrupt then Some(CORRUPTED)
    else if !Alive(bundle, s.clock) then Some(EXPIRED)
    else if !bundle.normal then Some(RESTRICTED)
    else if !Readable(s, bundle.manifest.artifact, bundle.manifest.content)
            || exists i | 0 <= i < |bundle.files| :: !RowVerifies(s, b, bundle.files[i])
    then Some(CORRUPTED)
    else None
  }

  /** A sealed bundle that is alive and not restricted always verifies, whatever optional files have expired. */
  lemma AliveVerifies(s: Shelf, b: Id)
    requires Sealed(s) && b in s.bundles
    ensures Verdict(s, b) == if !Alive(s.bundles[b], s.clock) then Some(EXPIRED) else if !s.bundles[b].normal
            then Some(RESTRICTED) else None
  {
    assert BundleFits(s, b);
    if Alive(s.bundles[b], s.clock) {
      assert ArtifactFits(s, s.bundles[b].manifest.artifact);
      forall i | 0 <= i < |s.bundles[b].files| ensures RowVerifies(s, b, s.bundles[b].files[i]) {
        assert ArtifactFits(s, s.bundles[b].files[i].artifact);
      }
    }
  }

  // ---- pins and time ----

  function WithPins(s: Shelf, b: Id, pins: Pins): Shelf
    requires b in s.bundles
  {
    s.(bundles := s.bundles[b := s.bundles[b].(pins := pins)])
  }

  /** Other pins keep everything, as long as a dead bundle stays dead. */
  lemma PinsKeep(s: Shelf, b: Id, pins: Pins)
    requires Sealed(s) && b in s.bundles
    requires Alive(s.bundles[b].(pins := pins), s.clock) ==> Alive(s.bundles[b], s.clock)
    ensures Sealed(WithPins(s, b, pins))
  {
    forall a ensures ArtifactFits(WithPins(s, b, pins), a) {
      assert ArtifactFits(s, a);
    }
    forall c ensures BundleFits(WithPins(s, b, pins), c) {
      assert BundleFits(s, c);
    }
  }

  lemma FewerPins(pins: Pins, fewer: Pins, now: nat)
    requires fewer.Keys <= pins.Keys && forall ref | ref in fewer :: fewer[ref] == pins[ref]
    ensures Pinned(fewer, now) ==> Pinned(pins, now)
  {
    if Pinned(fewer, now) {
      var ref :| ref in fewer && (fewer[ref].None? || fewer[ref].value > now);
      assert ref in pins;
    }
  }

  lemma TimeKeeps(s: Shelf, seconds: nat)
    requires Sealed(s)
    ensures Sealed(s.(clock := s.clock + seconds))
  {
    var t := s.(clock := s.clock + seconds);
    forall a ensures ArtifactFits(t, a) {
      assert ArtifactFits(s, a);
      if a in s.artifacts && s.artifacts[a].bundle.Some? && !Alive(s.bundles[s.artifacts[a].bundle.value], s.clock) {
        DeadStaysDead(s.bundles[s.artifacts[a].bundle.value], s.clock, t.clock);
      }
    }
    forall b ensures BundleFits(t, b) {
      assert BundleFits(s, b);
    }
  }

  // ---- expiry ----

  /** The file may be removed: its time is over and neither it nor its bundle is pinned. */
  predicate Due(s: Shelf, a: Id, now: nat) {
    && a in s.artifacts && s.artifacts[a].expired.None? && s.artifacts[a].expires <= now
    && !Pinned(s.artifacts[a].pins, now)
    && (s.artifacts[a].bundle.Some? && s.artifacts[a].bundle.value in s.bundles ==>
          s.bundles[s.artifacts[a].bundle.value].runEnded && !Pinned(s.bundles[s.artifacts[a].bundle.value].pins, now))
  }

  /** The removal of one file, with its record. */
  function Removed(s: Shelf, a: Id, now: nat): Shelf
    requires a in s.artifacts
  {
    var artifact := s.artifacts[a];
    s.(expiries := s.expiries[a := Expiry(artifact.content, artifact.expires, now)], store := s.store - {a},
    artifacts := s.artifacts[a := artifact.(expired := Some(now))])
  }

  /** The bundle ends: its time is over, it is not pinned, and no required file is left. */
  predicate BundleDue(s: Shelf, b: Id, now: nat) {
    && b in s.bundles && s.bundles[b].expired.None? && s.bundles[b].expires <= now && s.bundles[b].runEnded
    && !Pinned(s.bundles[b].pins, now)
    && forall a | a in s.artifacts && s.artifacts[a].bundle == Some(b) && s.artifacts[a].required ::
       s.artifacts[a].expired.Some?
  }

  function Ended(s: Shelf, b: Id, now: nat): Shelf
    requires b in s.bundles
  {
    s.(bundles := s.bundles[b := s.bundles[b].(expired := Some(now))])
  }

  lemma RemovalKeeps(s: Shelf, a: Id, now: nat)
    requires Sealed(s) && Due(s, a, now) && now <= s.clock
    ensures Sealed(Removed(s, a, now))
  {
    var t := Removed(s, a, now);
    assert ArtifactFits(s, a);
    if s.artifacts[a].bundle.Some? && s.artifacts[a].required {
      DeadStaysDead(s.bundles[s.artifacts[a].bundle.value], now, s.clock);
    }
    forall x ensures ArtifactFits(t, x) {
      assert ArtifactFits(s, x);
    }
    forall b ensures BundleFits(t, b) {
      assert BundleFits(s, b);
    }
  }

  lemma EndKeeps(s: Shelf, b: Id, now: nat)
    requires Sealed(s) && BundleDue(s, b, now)
    ensures Sealed(Ended(s, b, now))
  {
    forall x ensures ArtifactFits(Ended(s, b, now), x) {
      assert ArtifactFits(s, x);
    }
    forall c ensures BundleFits(Ended(s, b, now), c) {
      assert BundleFits(s, c);
    }
  }

  /** The artifacts of a bundle as they are stored when it is sealed. */
  function SealedArtifact(b: Id, row: FileRow, now: nat): Artifact {
    Artifact(Some(b), row.content, row.required, now + (if row.required then 30 * DAY else 7 * DAY), None, map[])
  }

  // ---- sealing ----

  /** The rows name distinct new files. */
  predicate Fresh(rows: seq<FileRow>, taken: set<Id>) {
    && (forall i | 0 <= i < |rows| :: rows[i].artifact !in taken)
    && (forall i, k | 0 <= i < k < |rows| :: rows[i].artifact != rows[k].artifact)
  }

  function Put(s: Shelf, b: Id, row: FileRow): Shelf {
    s.(artifacts := s.artifacts[row.artifact := SealedArtifact(b, row, s.clock)],
       store := s.store[row.artifact := row.content])
  }

  function PutAll(s: Shelf, b: Id, rows: seq<FileRow>): Shelf {
    if rows == [] then s else Put(PutAll(s, b, rows[..|rows| - 1]), b, rows[|rows| - 1])
  }

  /** The file of this row is in place as it was sealed. */
  predicate Stored(s: Shelf, b: Id, row: FileRow) {
    row.artifact in s.artifacts && s.artifacts[row.artifact] == SealedArtifact(b, row, s.clock)
      && Readable(s, row.artifact, row.content)
  }

  predicate Names(rows: seq<FileRow>, a: Id) {
    exists i | 0 <= i < |rows| :: rows[i].artifact == a
  }

  /** Shelf `t` has the files of these rows besides everything that was on `s`. */
  predicate StoresAll(s: Shelf, t: Shelf, b: Id, rows: seq<FileRow>) {
    && t == s.(artifacts := t.artifacts, store := t.store)
    && (forall i | 0 <= i < |rows| :: Stored(t, b, rows[i]))
    && (forall a | a in s.artifacts :: a in t.artifacts && t.artifacts[a] == s.artifacts[a])
    && (forall a | a in s.artifacts && a in s.store :: a in t.store && t.store[a] == s.store[a])
    && (forall a | a in t.artifacts && a !in s.artifacts :: Names(rows, a))
  }

  lemma PutStores(s: Shelf, t: Shelf, b: Id, rows: seq<FileRow>, row: FileRow)
    requires StoresAll(s, t, b, rows) && row.artifact !in s.artifacts && !Names(rows, row.artifact)
    ensures StoresAll(s, Put(t, b, row), b, rows + [row])
  {
    var u, all := Put(t, b, row), rows + [row];
    forall i | 0 <= i < |all| ensures Stored(u, b, all[i]) {
      if i < |rows| {
        assert Stored(t, b, rows[i]) && Names(rows, rows[i].artifact);
      }
    }
    forall a | a in u.artifacts && a !in s.artifacts ensures Names(all, a) {
      if a != row.artifact {
        var i :| 0 <= i < |rows| && rows[i].artifact == a;
        assert all[i].artifact == a;
      } else {
        assert all[|rows|].artifact == a;
      }
    }
  }

  lemma {:induction false} PutAllStores(s: Shelf, b: Id, rows: seq<FileRow>)
    requires Fresh(rows, s.artifacts.Keys)
    ensures StoresAll(s, PutAll(s, b, rows), b, rows)
  {
    if rows != [] {
      var before, last := rows[..|rows| - 1], rows[|rows| - 1];
      PutAllStores(s, b, before);
      PutStores(s, PutAll(s, b, before), b, before, last);
      assert before + [last] == rows;
    }
  }

  function Begin(s: Shelf, b: Id, manifest: FileRow, files: seq<FileRow>, normal: bool, runEnded: bool): Shelf {
    s.(bundles := s.bundles[b := Bundle(manifest, files, s.clock + 30 * DAY, None, map[], normal, false, runEnded)])
  }

  lemma SealKeeps(s: Shelf, begun: Shelf, b: Id)
    requires Sealed(s) && b !in s.bundles && b in begun.bundles
             && begun == s.(bundles := s.bundles[b := begun.bundles[b]])
    requires !begun.bundles[b].corrupt && begun.bundles[b].expires == s.clock + 30 * DAY
             && begun.bundles[b].manifest.required
    requires Fresh([begun.bundles[b].manifest] + begun.bundles[b].files, s.artifacts.Keys)
    ensures var t := PutAll(begun, b, [begun.bundles[b].manifest] + begun.bundles[b].files);
            Sealed(t) && t.bundles == begun.bundles && t.clock == begun.clock
  {
    var rows := [begun.bundles[b].manifest] + begun.bundles[b].files;
    var t := PutAll(begun, b, rows);
    PutAllStores(begun, b, rows);
    forall a ensures ArtifactFits(t, a) {
      assert ArtifactFits(s, a);
      if a in t.artifacts && a !in s.artifacts {
        var i :| 0 <= i < |rows| && rows[i].artifact == a;
        assert Stored(t, b, rows[i]);
      }
    }
    forall c ensures BundleFits(t, c) {
      assert BundleFits(s, c);
      if c == b {
        assert Stored(t, b, rows[0]);
        forall i | 0 <= i < |t.bundles[b].files| ensures RowFits(t, b, t.bundles[b].files[i]) {
          assert Stored(t, b, rows[i + 1]);
        }
      }
    }
  }

  /** A new bundle with new files, and a manifest that must be kept. */
  predicate MaySeal(s: Shelf, b: Id, manifest: FileRow, files: seq<FileRow>) {
    b !in s.bundles && manifest.required && Fresh([manifest] + files, s.artifacts.Keys)
  }

  /** The run behind a bundle comes to its end. */
  function RunEnded(s: Shelf, b: Id): Shelf
    requires b in s.bundles
  {
    s.(bundles := s.bundles[b := s.bundles[b].(runEnded := true)])
  }

  lemma RunEndKeeps(s: Shelf, b: Id)
    requires Sealed(s) && b in s.bundles
    ensures Sealed(RunEnded(s, b))
  {
    forall a ensures ArtifactFits(RunEnded(s, b), a) {
      assert ArtifactFits(s, a);
    }
    forall c ensures BundleFits(RunEnded(s, b), c) {
      assert BundleFits(s, c);
    }
  }

  // ---- every schedule ----

  datatype Step =
    | TickStep(seconds: nat)
    | PinStep(b: Id, reference: Id, expires: Option<nat>)
    | UnpinStep(b: Id, reference: Id)
    | RemoveStep(a: Id, now: nat)
    | EndStep(b: Id, now: nat)
    | RunEndStep(b: Id)
    | SealStep(b: Id, manifest: FileRow, files: seq<FileRow>, normal: bool, runEnded: bool)

  /** Pinning asks for a verification first; an expiry pass may work with a clock reading of some time ago. */
  function Apply(s: Shelf, step: Step): Shelf {
    match step
    case TickStep(seconds) => s.(clock := s.clock + seconds)
    case PinStep(b, reference, expires) =>
      if b !in s.bundles || Verdict(s, b).Some? || reference in s.bundles[b].pins then s
      else WithPins(s, b, s.bundles[b].pins[reference := expires])
    case UnpinStep(b, reference) => if b in s.bundles then WithPins(s, b, s.bundles[b].pins - {reference}) else s
    case RemoveStep(a, now) => if Due(s, a, now) && now <= s.clock then Removed(s, a, now) else s
    case EndStep(b, now) => if BundleDue(s, b, now) && now <= s.clock then Ended(s, b, now) else s
    case RunEndStep(b) => if b in s.bundles then RunEnded(s, b) else s
    case SealStep(b, manifest, files, normal, runEnded) =>
      if MaySeal(s, b, manifest, files) then PutAll(Begin(s, b, manifest, files, normal, runEnded), b,
                                                    [manifest] + files) else s
  }

  function Play(s: Shelf, steps: seq<Step>): Shelf {
    if steps == [] then s else Apply(Play(s, steps[..|steps| - 1]), steps[|steps| - 1])
  }

  lemma ApplyKeeps(s: Shelf, step: Step)
    requires Sealed(s)
    ensures Sealed(Apply(s, step))
  {
    match step
    case TickStep(seconds) => TimeKeeps(s, seconds);
    case PinStep(b, reference, expires) =>
      if b in s.bundles {
        AliveVerifies(s, b);
        if Verdict(s, b).None? {
          PinsKeep(s, b, s.bundles[b].pins[reference := expires]);
        }
      }
    case UnpinStep(b, reference) =>
      if b in s.bundles {
        FewerPins(s.bundles[b].pins, s.bundles[b].pins - {reference}, s.clock);
        PinsKeep(s, b, s.bundles[b].pins - {reference});
      }
    case RemoveStep(a, now) => if Due(s, a, now) && now <= s.clock { RemovalKeeps(s, a, now); }
    case EndStep(b, now) => if BundleDue(s, b, now) { EndKeeps(s, b, now); }
    case RunEndStep(b) => if b in s.bundles { RunEndKeeps(s, b); }
    case SealStep(b, manifest, files, normal, runEnded) =>
      if MaySeal(s, b, manifest, files) { SealKeeps(s, Begin(s, b, manifest, files, normal, runEnded), b); }
  }

  lemma PutAllLeaves(s: Shelf, b: Id, rows: seq<FileRow>)
    ensures PutAll(s, b, rows).bundles == s.bundles && PutAll(s, b, rows).clock == s.clock
  {
  }

  /** No step revives a dead bundle, and none changes what kind of bundle it is. */
  lemma DeadStep(s: Shelf, step: Step, b: Id)
    requires Sealed(s) && b in s.bundles
    ensures b in Apply(s, step).bundles && Apply(s, step).bundles[b].normal == s.bundles[b].normal
    ensures !Alive(s.bundles[b], s.clock) ==> !Alive(Apply(s, step).bundles[b], Apply(s, step).clock)
  {
    hide Verdict, Due, BundleDue, Removed, PutAll;
    AliveVerifies(s, b);
    if step.TickStep? {
      if !Alive(s.bundles[b], s.clock) {
        DeadStaysDead(s.bundles[b], s.clock, s.clock + step.seconds);
      }
    } else if step.UnpinStep? {
      FewerPins(s.bundles[b].pins, s.bundles[b].pins - {step.reference}, s.clock);
    } else if step.SealStep? {
      PutAllLeaves(Begin(s, step.b, step.manifest, step.files, step.normal, step.runEnded), step.b,
                   [step.manifest] + step.files);
    } else if step.RemoveStep? {
      RemovalLeaves(s, step.a, step.now);
    }
  }

  lemma RemovalLeaves(s: Shelf, a: Id, now: nat)
    ensures Apply(s, RemoveStep(a, now)).bundles == s.bundles && Apply(s, RemoveStep(a, now)).clock == s.clock
  {
  }

  /** On every schedule of time, pins, unpins, expiry, ending runs and new bundles: every alive NORMAL bundle verifies,
      and one that died without a pin stays dead, so no verification and no pin ever succeeds on it again. */
  lemma {:induction false} RetentionHolds(s: Shelf, steps: seq<Step>, b: Id)
    requires Sealed(s)
    ensures var t := Play(s, steps);
            && Sealed(t)
            && (b in t.bundles && Alive(t.bundles[b], t.clock) && t.bundles[b].normal ==> Verdict(t, b) == None)
            && (b in s.bundles ==> b in t.bundles && t.bundles[b].normal == s.bundles[b].normal)
            && (b in s.bundles && !Alive(s.bundles[b], s.clock) ==>
                  !Alive(t.bundles[b], t.clock) && Verdict(t, b) == Some(EXPIRED))
  {
    hide Apply, Verdict;
    if steps != [] {
      var before := Play(s, steps[..|steps| - 1]);
      RetentionHolds(s, steps[..|steps| - 1], b);
      ApplyKeeps(before, steps[|steps| - 1]);
      if b in s.bundles {
        DeadStep(before, steps[|steps| - 1], b);
      }
    }
    if b in Play(s, steps).bundles {
      AliveVerifies(Play(s, steps), b);
    }
  }

  class Archive {
    var clock: nat
    var bundles: map<Id, Bundle>
    var artifacts: map<Id, Artifact>
    var store: map<Id, Content>
    var expiries: map<Id, Expiry>

    function Rows(): Shelf
      reads this
    {
      Shelf(clock, bundles, artifacts, store, expiries)
    }

    ghost predicate Valid()
      reads this
    {
      Sealed(Rows())
    }

    constructor ()
      ensures Valid() && Rows() == Shelf(0, map[], map[], map[], map[])
    {
      clock, bundles, artifacts, store, expiries := 0, map[], map[], map[], map[];
    }

    method Tick(seconds: nat)
      requires Valid()
      modifies this`clock
      ensures Valid() && Rows() == old(Rows()).(clock := old(clock) + seconds)
    {
      TimeKeeps(Rows(), seconds);
      clock := clock + seconds;
    }

    method StoreFiles(b: Id, rows: seq<FileRow>)
      modifies this`artifacts, this`store
      ensures Rows() == PutAll(old(Rows()), b, rows)
    {
      ghost var before := Rows();
      var i := 0;
      while i < |rows|
        invariant 0 <= i <= |rows| && Rows() == PutAll(before, b, rows[..i])
      {
        assert rows[..i + 1][..i] == rows[..i];
        artifacts := artifacts[rows[i].artifact := SealedArtifact(b, rows[i], clock)];
        store := store[rows[i].artifact := rows[i].content];
        i := i + 1;
      }
      assert rows[..i] == rows;
    }

    method EndRun(b: Id)
      requires Valid() && b in bundles
      modifies this`bundles
      ensures Valid() && Rows() == RunEnded(old(Rows()), b)
    {
      RunEndKeeps(Rows(), b);
      bundles := bundles[b := bundles[b].(runEnded := true)];
    }

    /** Seals a bundle: its manifest and files are stored, required ones for thirty days, the others for seven. */
    method Seal(b: Id, manifest: FileRow, files: seq<FileRow>, normal: bool, runEnded: bool)
      requires Valid() && b !in bundles && manifest.required && Fresh([manifest] + files, artifacts.Keys)
      modifies this`bundles, this`artifacts, this`store
      ensures Valid() && b in bundles && (normal ==> Verdict(Rows(), b) == None)
      ensures Rows() == PutAll(Begin(old(Rows()), b, manifest, files, normal, runEnded), b, [manifest] + files)
    {
      ghost var before := Rows();
      bundles := bundles[b := Bundle(manifest, files, clock + 30 * DAY, None, map[], normal, false, runEnded)];
      SealKeeps(before, Rows(), b);
      StoreFiles(b, [manifest] + files);
      SealVerifies(Rows(), b);
    }

    lemma SealVerifies(s: Shelf, b: Id)
      requires Sealed(s) && b in s.bundles && s.bundles[b].expired.None? && s.bundles[b].expires > s.clock
      ensures s.bundles[b].normal ==> Verdict(s, b) == None
    {
      AliveVerifies(s, b);
    }

    /** Checks a bundle against its manifest and marks it corrupted if anything is missing. */
    method VerifyBundle(b: Id) returns (r: Option<Failure>)
      requires b in bundles
      modifies this`bundles
      ensures r == Verdict(old(Rows()), b)
      ensures Rows() == if r == Some(CORRUPTED)
              then old(Rows()).(bundles := old(bundles)[b := old(bundles)[b].(corrupt := true)])
                        else old(Rows())
    {
      var bundle := bundles[b];
      if bundle.corrupt {
        assert bundles[b := bundle.(corrupt := true)] == bundles;
        return Some(CORRUPTED);
      }
      if bundle.expired.Some? || (bundle.expires <= clock && !Pinned(bundle.pins, clock)) {
        return Some(EXPIRED);
      }
      if !bundle.normal {
        return Some(RESTRICTED);
      }
      var broken := !Readable(Rows(), bundle.manifest.artifact, bundle.manifest.content);
      var i := 0;
      while i < |bundle.files| && !broken
        invariant 0 <= i <= |bundle.files| && Rows() == old(Rows())
        invariant broken <==> !Readable(Rows(), bundle.manifest.artifact, bundle.manifest.content)
                              || exists k | 0 <= k < i :: !RowVerifies(Rows(), b, bundle.files[k])
      {
        broken := !RowVerifies(Rows(), b, bundle.files[i]);
        i := i + 1;
      }
      if broken {
        bundles := bundles[b := bundle.(corrupt := true)];
        return Some(CORRUPTED);
      }
      return None;
    }

    /** A bundle is pinned only if it verifies now; an existing pin keeps its end. A bundle that died is never pinned
        again. */
    method PinBundle(b: Id, reference: Id, expires: Option<nat>) returns (r: Option<Failure>)
      requires Valid() && b in bundles
      modifies this`bundles
      ensures Valid() && r == Verdict(old(Rows()), b)
      ensures !Alive(old(bundles)[b], clock) ==> r == Some(EXPIRED)
      ensures Rows() == if r.Some? || reference in old(bundles)[b].pins then old(Rows())
                        else WithPins(old(Rows()), b, old(bundles)[b].pins[reference := expires])
    {
      AliveVerifies(Rows(), b);
      r := VerifyBundle(b);
      if r.Some? || reference in bundles[b].pins {
        return;
      }
      PinsKeep(Rows(), b, bundles[b].pins[reference := expires]);
      bundles := bundles[b := bundles[b].(pins := bundles[b].pins[reference := expires])];
    }

    method UnpinBundle(b: Id, reference: Id)
      requires Valid() && b in bundles
      modifies this`bundles
      ensures Valid() && Rows() == WithPins(old(Rows()), b, old(bundles)[b].pins - {reference})
    {
      FewerPins(bundles[b].pins, bundles[b].pins - {reference}, clock);
      PinsKeep(Rows(), b, bundles[b].pins - {reference});
      bundles := bundles[b := bundles[b].(pins := bundles[b].pins - {reference})];
    }

    /** One file of an expiry pass that read the clock at `now`. */
    method ExpireArtifact(a: Id, now: nat) returns (removed: bool)
      requires Valid() && now <= clock && a in artifacts
      modifies this`artifacts, this`store, this`expiries
      ensures Valid() && removed == Due(old(Rows()), a, now)
      ensures Rows() == if removed then Removed(old(Rows()), a, now) else old(Rows())
    {
      var artifact := artifacts[a];
      assert ArtifactFits(Rows(), a);
      if artifact.expired.Some? || artifact.expires > now {
        return false;
      }
      if artifact.bundle.Some? && !bundles[artifact.bundle.value].runEnded {
        return false;
      }
      if Pinned(artifact.pins, now) || (artifact.bundle.Some? && Pinned(bundles[artifact.bundle.value].pins, now)) {
        return false;
      }
      RemovalKeeps(Rows(), a, now);
      expiries := expiries[a := Expiry(artifact.content, artifact.expires, now)];
      store := store - {a};
      artifacts := artifacts[a := artifact.(expired := Some(now))];
      return true;
    }

    method ExpireBundle(b: Id, now: nat) returns (ended: bool)
      requires Valid() && now <= clock && b in bundles
      modifies this`bundles
      ensures Valid() && ended == BundleDue(old(Rows()), b, now)
      ensures Rows() == if ended then Ended(old(Rows()), b, now) else old(Rows())
    {
      if !BundleDue(Rows(), b, now) {
        return false;
      }
      EndKeeps(Rows(), b, now);
      bundles := bundles[b := bundles[b].(expired := Some(now))];
      return true;
    }

    /** Every due file of the list goes, and no other. */
    method ExpireArtifacts(order: seq<Id>) returns (expired: nat)
      requires Valid() && forall a | a in order :: a in artifacts
      modifies this`artifacts, this`store, this`expiries
      ensures Valid() && artifacts.Keys == old(artifacts).Keys
      ensures forall a | a in artifacts ::
                artifacts[a] == if a in order && Due(old(Rows()), a, clock)
                                then old(artifacts)[a].(expired := Some(clock)) else old(artifacts)[a]
    {
      hide Sealed;
      ghost var before := Rows();
      expired := 0;
      var i := 0;
      while i < |order|
        invariant 0 <= i <= |order| && Valid() && artifacts.Keys == before.artifacts.Keys
        invariant forall a | a in artifacts ::
          artifacts[a] == if a in order[..i] && Due(before, a, clock)
                          then before.artifacts[a].(expired := Some(clock)) else before.artifacts[a]
      {
        assert order[..i + 1] == order[..i] + [order[i]];
        assert order[i] in order;
        var removed := ExpireArtifact(order[i], clock);
        if removed {
          expired := expired + 1;
        }
        i := i + 1;
      }
      assert order[..i] == order;
    }

    /** Bundles whose required files are gone end; an alive bundle does not. */
    method ExpireBundles(order: seq<Id>)
      requires Valid() && forall b | b in order :: b in bundles
      modifies this`bundles
      ensures Valid() && bundles.Keys == old(bundles).Keys
      ensures forall b | b in bundles && Alive(old(bundles)[b], clock) :: bundles[b] == old(bundles)[b]
    {
      var i := 0;
      while i < |order|
        invariant 0 <= i <= |order| && Valid() && bundles.Keys == old(bundles).Keys
        invariant forall b | b in bundles && Alive(old(bundles)[b], clock) :: bundles[b] == old(bundles)[b]
      {
        assert order[i] in order;
        var ended := ExpireBundle(order[i], clock);
        i := i + 1;
      }
    }

    /** A whole expiry pass: every due file goes, every other file stays, and alive bundles stay as they are. */
    method ExpireResults(order: seq<Id>, bundleOrder: seq<Id>) returns (expired: nat)
      requires Valid() && (forall a | a in order :: a in artifacts) && (forall b | b in bundleOrder :: b in bundles)
      modifies this`bundles, this`artifacts, this`store, this`expiries
      ensures Valid() && bundles.Keys == old(bundles).Keys && artifacts.Keys == old(artifacts).Keys
      ensures forall a | a in artifacts ::
                artifacts[a] == if a in order && Due(old(Rows()), a, clock)
                                then old(artifacts)[a].(expired := Some(clock)) else old(artifacts)[a]
      ensures forall b | b in bundles && Alive(old(bundles)[b], clock) :: bundles[b] == old(bundles)[b]
    {
      expired := ExpireArtifacts(order);
      ExpireBundles(bundleOrder);
    }
  }
}
