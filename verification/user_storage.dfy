/** Content-addressed user storage with deferred sweeping
    (bzplat/backend/user_storage.py, with the commit and delete routes of
    bzplat/backend/api_routes.py), as interleaved atomic steps. */
module UserStorage {

  datatype Option<T> = None | Some(value: T)

  /** A blob is addressed by its owner and the checksum of its content. */
  datatype Key = Key(user: int, sha: int)

  /** A manifest row is named within its owner. */
  datatype Entry = Entry(user: int, name: int)

  /** `wrote` is the time of the last write to the staged file; renaming it into place
      keeps it. `dirTime` is the time the staging directory last changed, and `staged`
      whether that directory still exists. */
  datatype Upload = Upload(key: Key, name: int, dirTime: int, wrote: int, staged: bool, promoted: bool)

  /** Where the background sweep stands. `late` collects the uploads that promoted the
      blob under inspection after the sweep read its age. */
  datatype Sweep =
    | Idle
    | Started(cutoff: int)
    | Scanning(cutoff: int, referenced: set<Key>)
    | Statted(cutoff: int, referenced: set<Key>, key: Key, late: set<nat>)
    | Cleared(cutoff: int, referenced: set<Key>, key: Key)

  /** `files` gives each blob's modification time. */
  datatype State = State(now: int, files: map<Key, int>, rows: map<Entry, int>, uploads: map<nat, Upload>, sweep: Sweep)

  datatype Config = Config(grace: nat, lanes: nat)

  datatype Event =
    | Tick(elapsed: nat)
    | Begin(id: nat, key: Key, name: int)
    | Write(id: nat)
    | Promote(id: nat)
    | Commit(id: nat)
    | Abandon(id: nat)
    | Delete(entry: Entry)
    | Crash
    | SweepBegin
    | Snapshot
    | SweepStaging(id: nat)
    | Stat(key: Key)
    | Recheck
    | Unlink
    | UnlinkFails
    | SweepEnd

  predicate Referenced(rows: map<Entry, int>, k: Key) {
    exists e :: e in rows && Key(e.user, rows[e]) == k
  }

  function References(rows: map<Entry, int>): set<Key> {
    set e | e in rows :: Key(e.user, rows[e])
  }

  predicate Enabled(c: Config, s: State, e: Event) {
    match e
    case Begin(id, _, _) => id !in s.uploads && |s.uploads| < c.lanes
    case Write(id) => id in s.uploads && !s.uploads[id].promoted
    case Promote(id) => id in s.uploads && !s.uploads[id].promoted && s.uploads[id].staged
    case Commit(id) => id in s.uploads && s.uploads[id].promoted
    case Abandon(id) => id in s.uploads
    case SweepBegin => s.sweep.Idle?
    case Snapshot => s.sweep.Started?
    case SweepStaging(id) => s.sweep.Scanning? && id in s.uploads && s.uploads[id].dirTime < s.sweep.cutoff
    case Stat(k) => s.sweep.Scanning? && k in s.files
    case Recheck => s.sweep.Statted?
    case Unlink => s.sweep.Cleared?
    case UnlinkFails => s.sweep.Cleared?
    case SweepEnd => s.sweep.Scanning?
    case _ => true
  }

  /** The manifest is touched by commits and deletes only. */
  function RowsAfter(s: State, e: Event): map<Entry, int> {
    match e
    case Commit(id) =>
      if id in s.uploads then s.rows[Entry(s.uploads[id].key.user, s.uploads[id].name) := s.uploads[id].key.sha]
      else s.rows
    case Delete(entry) => s.rows - {entry}
    case _ => s.rows
  }

  function Step(c: Config, s: State, e: Event): (t: State)
    requires Enabled(c, s, e)
    ensures t.rows == RowsAfter(s, e)
  {
    match e
    case Tick(d) => s.(now := s.now + d)
    case Begin(id, k, name) => s.(uploads := s.uploads[id := Upload(k, name, s.now, s.now, true, false)])
    case Write(id) => s.(uploads := s.uploads[id := s.uploads[id].(wrote := s.now)])
    case Promote(id) =>
      var u := s.uploads[id];
      s.(files := s.files[u.key := u.wrote],
         uploads := s.uploads[id := u.(promoted := true)],
         sweep := if s.sweep.Statted? && s.sweep.key == u.key then s.sweep.(late := s.sweep.late + {id}) else s.sweep)
    case Commit(id) =>
      var u := s.uploads[id];
      s.(rows := s.rows[Entry(u.key.user, u.name) := u.key.sha], uploads := s.uploads - {id})
    case Abandon(id) => s.(uploads := s.uploads - {id})
    case Delete(entry) => s.(rows := s.rows - {entry})
    case Crash => s.(uploads := map[], sweep := Idle)
    case SweepBegin => s.(sweep := Started(s.now - c.grace))
    case Snapshot => s.(sweep := Scanning(s.sweep.cutoff, References(s.rows)))
    case SweepStaging(id) => s.(uploads := s.uploads[id := s.uploads[id].(staged := false)])
    case Stat(k) =>
      if k in s.sweep.referenced || s.files[k] >= s.sweep.cutoff then s
      else s.(sweep := Statted(s.sweep.cutoff, s.sweep.referenced, k, {}))
    case Recheck =>
      if Referenced(s.rows, s.sweep.key) then s.(sweep := Scanning(s.sweep.cutoff, s.sweep.referenced))
      else s.(sweep := Cleared(s.sweep.cutoff, s.sweep.referenced, s.sweep.key))
    case Unlink => s.(files := s.files - {s.sweep.key}, sweep := Scanning(s.sweep.cutoff, s.sweep.referenced))
    case UnlinkFails => s.(sweep := Scanning(s.sweep.cutoff, s.sweep.referenced))
    case SweepEnd => s.(sweep := Idle)
  }

  /** A commit follows the last write within the grace period. */
  predicate Timely(c: Config, s: State, e: Event)
    requires Enabled(c, s, e)
  {
    e.Commit? ==> s.now <= s.uploads[e.id].wrote + c.grace
  }

  /** No promote of a blob lands between the sweep's look at it and its removal, unless
      the upload has committed (or given up) before the recheck. */
  predicate Undisturbed(c: Config, s: State, e: Event)
    requires Enabled(c, s, e)
  {
    && (e.Promote? && s.sweep.Cleared? ==> s.uploads[e.id].key != s.sweep.key)
    && (e.Recheck? ==> s.sweep.late !! s.uploads.Keys)
  }

  /** Uploads of one content take turns between promote and commit. */
  predicate TakesTurns(c: Config, s: State, e: Event)
    requires Enabled(c, s, e)
  {
    e.Promote? ==>
      forall id :: id in s.uploads && id != e.id && s.uploads[id].promoted ==> s.uploads[id].key != s.uploads[e.id].key
  }

  /** Every manifest row has its blob. */
  ghost predicate Safe(s: State) {
    forall e :: e in s.rows ==> Key(e.user, s.rows[e]) in s.files
  }

  /** An upload that has outlived the grace period may no longer commit. */
  predicate Expired(c: Config, s: State, u: Upload) {
    u.wrote + c.grace < s.now
  }

  /** A promoted upload that may still commit owns the blob it promoted. */
  ghost predicate Owned(c: Config, s: State) {
    forall id :: id in s.uploads && s.uploads[id].promoted ==>
      Expired(c, s, s.uploads[id])
      || (s.uploads[id].key in s.files && s.files[s.uploads[id].key] == s.uploads[id].wrote)
  }

  /** Of the uploads that have promoted `k`, only those in `late` may still commit. */
  ghost predicate OnlyLate(c: Config, s: State, k: Key, late: set<nat>) {
    forall id :: id in s.uploads && s.uploads[id].promoted && s.uploads[id].key == k && id !in late ==>
      Expired(c, s, s.uploads[id])
  }

  ghost predicate SweepSound(c: Config, s: State) {
    match s.sweep
    case Idle => true
    case Started(cutoff) => cutoff + c.grace <= s.now
    case Scanning(cutoff, _) => cutoff + c.grace <= s.now
    case Statted(cutoff, _, k, late) => cutoff + c.grace <= s.now && OnlyLate(c, s, k, late)
    case Cleared(cutoff, _, k) => cutoff + c.grace <= s.now && OnlyLate(c, s, k, {}) && !Referenced(s.rows, k)
  }

  ghost predicate Inv(c: Config, s: State) {
    Safe(s) && Owned(c, s) && SweepSound(c, s)
  }

  predicate ByUpload(e: Event) {
    e.Begin? || e.Write? || e.Promote? || e.Commit? || e.Abandon?
  }

  predicate BySweep(e: Event) {
    e.SweepBegin? || e.Snapshot? || e.Stat? || e.Recheck? || e.Unlink? || e.UnlinkFails? || e.SweepEnd?
  }

  lemma UploadStepKeepsInv(c: Config, s: State, e: Event)
    requires Inv(c, s) && Enabled(c, s, e) && ByUpload(e)
    requires Timely(c, s, e) && Undisturbed(c, s, e) && TakesTurns(c, s, e)
    ensures Inv(c, Step(c, s, e))
  {
  }

  /** Looking at a blob that is old enough: no upload that may still commit has promoted it. */
  lemma StatKeepsInv(c: Config, s: State, k: Key)
    requires Inv(c, s) && Enabled(c, s, Stat(k))
    ensures Inv(c, Step(c, s, Stat(k)))
  {
  }

  lemma RecheckKeepsInv(c: Config, s: State)
    requires Inv(c, s) && Enabled(c, s, Recheck) && Undisturbed(c, s, Recheck)
    ensures Inv(c, Step(c, s, Recheck))
  {
  }

  lemma UnlinkKeepsInv(c: Config, s: State)
    requires Inv(c, s) && Enabled(c, s, Unlink)
    ensures Inv(c, Step(c, s, Unlink))
  {
    var t := Step(c, s, Unlink);
    forall id | id in t.uploads && t.uploads[id].promoted
      ensures Expired(c, t, t.uploads[id])
              || (t.uploads[id].key in t.files && t.files[t.uploads[id].key] == t.uploads[id].wrote)
    {
      assert t.uploads[id] == s.uploads[id];
    }
    forall e | e in t.rows
      ensures Key(e.user, t.rows[e]) in t.files
    {
      assert Key(e.user, s.rows[e]) in s.files;
    }
  }

  lemma SweepStepKeepsInv(c: Config, s: State, e: Event)
    requires Inv(c, s) && Enabled(c, s, e) && BySweep(e) && Undisturbed(c, s, e)
    ensures Inv(c, Step(c, s, e))
  {
    if e.Stat? {
      StatKeepsInv(c, s, e.key);
    } else if e.Recheck? {
      RecheckKeepsInv(c, s);
    } else if e.Unlink? {
      UnlinkKeepsInv(c, s);
    }
  }

  lemma OtherStepKeepsInv(c: Config, s: State, e: Event)
    requires Inv(c, s) && Enabled(c, s, e) && !ByUpload(e) && !BySweep(e)
    ensures Inv(c, Step(c, s, e))
  {
  }

  /** A run: a sequence of enabled steps, with the states it passes through. */
  function Run(c: Config, s: State, events: seq<Event>): State
    requires Runs(c, s, events)
    decreases |events|
  {
    if |events| == 0 then s else Run(c, Step(c, s, events[0]), events[1..])
  }

  predicate Runs(c: Config, s: State, events: seq<Event>)
    decreases |events|
  {
    |events| > 0 ==> Enabled(c, s, events[0]) && Runs(c, Step(c, s, events[0]), events[1..])
  }

  /** Whether each hypothesis holds at every step of a run. */
  predicate AllTimely(c: Config, s: State, events: seq<Event>)
    requires Runs(c, s, events)
    decreases |events|
  {
    |events| > 0 ==> Timely(c, s, events[0]) && AllTimely(c, Step(c, s, events[0]), events[1..])
  }

  predicate AllUndisturbed(c: Config, s: State, events: seq<Event>)
    requires Runs(c, s, events)
    decreases |events|
  {
    |events| > 0 ==> Undisturbed(c, s, events[0]) && AllUndisturbed(c, Step(c, s, events[0]), events[1..])
  }

  predicate AllTakeTurns(c: Config, s: State, events: seq<Event>)
    requires Runs(c, s, events)
    decreases |events|
  {
    |events| > 0 ==> TakesTurns(c, s, events[0]) && AllTakeTurns(c, Step(c, s, events[0]), events[1..])
  }

  /** A freshly started process: no upload and no sweep under way, every row with its blob. */
  ghost predicate Init(s: State) {
    Safe(s) && s.uploads == map[] && s.sweep == Idle
  }

  lemma {:induction false} RunKeepsInv(c: Config, s: State, events: seq<Event>)
    requires Runs(c, s, events) && Inv(c, s)
    requires AllTimely(c, s, events) && AllUndisturbed(c, s, events) && AllTakeTurns(c, s, events)
    ensures Inv(c, Run(c, s, events))
    decreases |events|
  {
    if |events| > 0 {
      var e := events[0];
      if ByUpload(e) {
        UploadStepKeepsInv(c, s, e);
      } else if BySweep(e) {
        SweepStepKeepsInv(c, s, e);
      } else {
        OtherStepKeepsInv(c, s, e);
      }
      RunKeepsInv(c, Step(c, s, e), events[1..]);
    }
  }

  /** Every row keeps its blob over every interleaving of uploads, deletes, crashes and
      sweeps in which the three hypotheses hold. */
  lemma EveryRowHasItsBlob(c: Config, s: State, events: seq<Event>)
    requires Init(s) && Runs(c, s, events)
    requires AllTimely(c, s, events) && AllUndisturbed(c, s, events) && AllTakeTurns(c, s, events)
    ensures Safe(Run(c, s, events))
  {
    RunKeepsInv(c, s, events);
  }

  // ----- which rows there are

  /** What an event says of an entry. */
  datatype Word = Nothing | Committed(sha: int) | Deleted

  function WordOf(s: State, e: Event, entry: Entry): Word {
    match e
    case Commit(id) =>
      if id in s.uploads && Entry(s.uploads[id].key.user, s.uploads[id].name) == entry
      then Committed(s.uploads[id].key.sha) else Nothing
    case Delete(other) => if other == entry then Deleted else Nothing
    case _ => Nothing
  }

  /** The last word of a run on an entry. */
  function LastWord(c: Config, s: State, events: seq<Event>, entry: Entry): Word
    requires Runs(c, s, events)
    decreases |events|
  {
    if |events| == 0 then Nothing
    else
      var later := LastWord(c, Step(c, s, events[0]), events[1..], entry);
      if later != Nothing then later else WordOf(s, events[0], entry)
  }

  /** What one word makes of an entry. */
  ghost predicate Obeys(word: Word, entry: Entry, before: map<Entry, int>, after: map<Entry, int>) {
    match word
    case Nothing => (entry in after <==> entry in before) && (entry in before ==> after[entry] == before[entry])
    case Committed(sha) => entry in after && after[entry] == sha
    case Deleted => entry !in after
  }

  lemma WordIsObeyed(s: State, e: Event, entry: Entry)
    ensures Obeys(WordOf(s, e, entry), entry, s.rows, RowsAfter(s, e))
  {
  }

  /** Over every run: an entry is listed with a content exactly if the last event that names it
      is the commit of that content under its name, or no event names it and it was listed so
      at the start. */
  lemma {:induction false} RowsAreLastWords(c: Config, s: State, events: seq<Event>, entry: Entry)
    requires Runs(c, s, events)
    ensures Obeys(LastWord(c, s, events, entry), entry, s.rows, Run(c, s, events).rows)
    decreases |events|
  {
    if |events| > 0 {
      WordIsObeyed(s, events[0], entry);
      RowsAreLastWords(c, Step(c, s, events[0]), events[1..], entry);
    }
  }

  /** What the last event about an upload makes of it. */
  datatype Life = Unmentioned | Begun(key: Key, name: int) | Over

  function LifeOf(e: Event, id: nat): Life {
    match e
    case Begin(other, key, name) => if other == id then Begun(key, name) else Unmentioned
    case Commit(other) => if other == id then Over else Unmentioned
    case Abandon(other) => if other == id then Over else Unmentioned
    case Crash => Over
    case _ => Unmentioned
  }

  function LastLife(events: seq<Event>, id: nat): Life {
    if |events| == 0 then Unmentioned
    else
      var later := LastLife(events[1..], id);
      if later != Unmentioned then later else LifeOf(events[0], id)
  }

  ghost predicate Lives(life: Life, id: nat, before: map<nat, Upload>, after: map<nat, Upload>) {
    match life
    case Unmentioned =>
      (id in after <==> id in before)
      && (id in before ==> after[id].key == before[id].key && after[id].name == before[id].name)
    case Begun(key, name) => id in after && after[id].key == key && after[id].name == name
    case Over => id !in after
  }

  lemma LifeStep(c: Config, s: State, e: Event, id: nat)
    requires Enabled(c, s, e)
    ensures Lives(LifeOf(e, id), id, s.uploads, Step(c, s, e).uploads)
  {
  }

  /** Over every run: an upload is under way exactly from its beginning to its commit, its
      abandonment or a crash, with the user, content and name it began with. */
  lemma {:induction false} UploadsLastAsBegun(c: Config, s: State, events: seq<Event>, id: nat)
    requires Runs(c, s, events)
    ensures Lives(LastLife(events, id), id, s.uploads, Run(c, s, events).uploads)
    decreases |events|
  {
    if |events| > 0 {
      LifeStep(c, s, events[0], id);
      UploadsLastAsBegun(c, Step(c, s, events[0]), events[1..], id);
    }
  }

  /** The clock and the last event that touched an upload: when it was written last, whether its
      staging directory is still there and whether its file has been renamed into place. */
  function Touched(u: Option<Upload>, now: int, e: Event, id: nat): Option<Upload> {
    if LifeOf(e, id) == Over then None
    else if e.Begin? && e.id == id then Some(Upload(e.key, e.name, now, now, true, false))
    else if u.None? then None
    else if e == Write(id) then Some(u.value.(wrote := now))
    else if e == Promote(id) then Some(u.value.(promoted := true))
    else if e == SweepStaging(id) then Some(u.value.(staged := false))
    else u
  }

  function Later(now: int, e: Event): int {
    if e.Tick? then now + e.elapsed else now
  }

  function Followed(u: Option<Upload>, now: int, events: seq<Event>, id: nat): Option<Upload>
    decreases |events|
  {
    if |events| == 0 then u
    else Followed(Touched(u, now, events[0], id), Later(now, events[0]), events[1..], id)
  }

  function UploadAt(s: State, id: nat): Option<Upload> {
    if id in s.uploads then Some(s.uploads[id]) else None
  }

  lemma FollowStep(c: Config, s: State, e: Event, id: nat)
    requires Enabled(c, s, e)
    ensures UploadAt(Step(c, s, e), id) == Touched(UploadAt(s, id), s.now, e, id)
    ensures Step(c, s, e).now == Later(s.now, e)
  {
  }

  /** Over every run: an upload is what the clock and its own events make it, whatever other
      uploads, the manifest and the sweep do, but for the sweep of its staging directory. */
  lemma {:induction false} UploadsAreTheirOwn(c: Config, s: State, events: seq<Event>, id: nat)
    requires Runs(c, s, events)
    ensures UploadAt(Run(c, s, events), id) == Followed(UploadAt(s, id), s.now, events, id)
    decreases |events|
  {
    if |events| > 0 {
      FollowStep(c, s, events[0], id);
      UploadsAreTheirOwn(c, Step(c, s, events[0]), events[1..], id);
    }
  }

  /** An upload whose staging directory was swept cannot promote. */
  lemma SweptStagingStops(c: Config, s: State, id: nat)
    requires Enabled(c, s, SweepStaging(id))
    ensures s.now - c.grace >= s.sweep.cutoff ==> s.uploads[id].dirTime + c.grace < s.now
    ensures !Enabled(c, Step(c, s, SweepStaging(id)), Promote(id))
  {
  }

  lemma SubsetSize(a: set<nat>, b: set<nat>)
    requires a <= b
    ensures |a| <= |b|
  {
    assert b == a + (b - a);
  }

  lemma OneLaneStep(c: Config, s: State, e: Event)
    requires c.lanes <= 1 && |s.uploads.Keys| <= 1 && Enabled(c, s, e)
    ensures TakesTurns(c, s, e) && |Step(c, s, e).uploads.Keys| <= 1
  {
    var t := Step(c, s, e);
    if e.Promote? {
      assert |s.uploads.Keys - {e.id}| == 0;
      assert forall other :: other in s.uploads && other != e.id ==> other in s.uploads.Keys - {e.id};
    }
    if e.Begin? {
      assert |s.uploads| == |s.uploads.Keys|;
      assert s.uploads.Keys == {} && t.uploads.Keys == {e.id};
    } else {
      SubsetSize(t.uploads.Keys, s.uploads.Keys);
    }
  }

  lemma {:induction false} OneLaneTakesTurns(c: Config, s: State, events: seq<Event>)
    requires c.lanes <= 1 && |s.uploads.Keys| <= 1 && Runs(c, s, events)
    ensures AllTakeTurns(c, s, events)
    decreases |events|
  {
    if |events| > 0 {
      OneLaneStep(c, s, events[0]);
      OneLaneTakesTurns(c, Step(c, s, events[0]), events[1..]);
    }
  }

  /** With a single upload lane, as on the platform, the third hypothesis is free. */
  lemma OneLaneIsSafe(c: Config, s: State, events: seq<Event>)
    requires c.lanes <= 1 && Init(s) && Runs(c, s, events)
    requires AllTimely(c, s, events) && AllUndisturbed(c, s, events)
    ensures Safe(Run(c, s, events))
  {
    OneLaneTakesTurns(c, s, events);
    EveryRowHasItsBlob(c, s, events);
  }

  // ----- each hypothesis is needed

  ghost predicate Timed(c: Config, s: State, events: seq<Event>) {
    Runs(c, s, events) && AllTimely(c, s, events)
  }

  ghost predicate Calm(c: Config, s: State, events: seq<Event>) {
    Runs(c, s, events) && AllUndisturbed(c, s, events)
  }

  ghost predicate InTurn(c: Config, s: State, events: seq<Event>) {
    Runs(c, s, events) && AllTakeTurns(c, s, events)
  }

  lemma {:induction false} RunsCompose(c: Config, s: State, a: seq<Event>, b: seq<Event>)
    requires Runs(c, s, a) && Runs(c, Run(c, s, a), b)
    ensures Runs(c, s, a + b) && Run(c, s, a + b) == Run(c, Run(c, s, a), b)
    ensures Timed(c, s, a + b) <==> Timed(c, s, a) && Timed(c, Run(c, s, a), b)
    ensures Calm(c, s, a + b) <==> Calm(c, s, a) && Calm(c, Run(c, s, a), b)
    ensures InTurn(c, s, a + b) <==> InTurn(c, s, a) && InTurn(c, Run(c, s, a), b)
    decreases |a|
  {
    if |a| == 0 {
      assert a + b == b;
    } else {
      assert (a + b)[1..] == a[1..] + b;
      RunsCompose(c, Step(c, s, a[0]), a[1..], b);
    }
  }

  lemma OneStep(c: Config, s: State, e: Event)
    requires Enabled(c, s, e)
    ensures Runs(c, s, [e]) && Run(c, s, [e]) == Step(c, s, e)
    ensures (Timed(c, s, [e]) <==> Timely(c, s, e)) && (Calm(c, s, [e]) <==> Undisturbed(c, s, e))
    ensures InTurn(c, s, [e]) <==> TakesTurns(c, s, e)
  {
    var t := Step(c, s, e);
    assert [e][1..] == [];
    assert AllTimely(c, t, []) && AllUndisturbed(c, t, []) && AllTakeTurns(c, t, []);
  }

  lemma TwoSteps(c: Config, s: State, e: Event, f: Event)
    requires Enabled(c, s, e) && Enabled(c, Step(c, s, e), f)
    ensures Runs(c, s, [e, f]) && Run(c, s, [e, f]) == Step(c, Step(c, s, e), f)
    ensures Timed(c, s, [e, f]) <==> Timely(c, s, e) && Timely(c, Step(c, s, e), f)
    ensures Calm(c, s, [e, f]) <==> Undisturbed(c, s, e) && Undisturbed(c, Step(c, s, e), f)
    ensures InTurn(c, s, [e, f]) <==> TakesTurns(c, s, e) && TakesTurns(c, Step(c, s, e), f)
  {
    OneStep(c, s, e);
    OneStep(c, Step(c, s, e), f);
    RunsCompose(c, s, [e], [f]);
    assert [e] + [f] == [e, f];
  }

  function StartingSweep(): seq<Event> {
    [SweepBegin, Snapshot]
  }

  function InspectingSweep(k: Key): seq<Event> {
    [Stat(k), Recheck]
  }

  function ClearingSweep(k: Key): seq<Event> {
    StartingSweep() + InspectingSweep(k)
  }

  lemma SweepStarts(c: Config, s: State)
    requires s.sweep.Idle?
    ensures Timed(c, s, StartingSweep()) && Calm(c, s, StartingSweep()) && InTurn(c, s, StartingSweep())
    ensures Run(c, s, StartingSweep()) == s.(sweep := Scanning(s.now - c.grace, References(s.rows)))
  {
    TwoSteps(c, s, SweepBegin, Snapshot);
  }

  lemma SweepInspects(c: Config, s: State, k: Key)
    requires s.sweep == Scanning(s.now - c.grace, References(s.rows))
    requires !Referenced(s.rows, k) && k in s.files && s.files[k] + c.grace < s.now
    ensures Timed(c, s, InspectingSweep(k)) && Calm(c, s, InspectingSweep(k)) && InTurn(c, s, InspectingSweep(k))
    ensures Run(c, s, InspectingSweep(k)) == s.(sweep := Cleared(s.sweep.cutoff, s.sweep.referenced, k))
  {
    TwoSteps(c, s, Stat(k), Recheck);
  }

  /** An undisturbed sweep reaches the removal of every old blob that no row names. */
  lemma SweepClears(c: Config, s: State, k: Key)
    requires s.sweep.Idle? && !Referenced(s.rows, k) && k in s.files && s.files[k] + c.grace < s.now
    ensures Timed(c, s, ClearingSweep(k)) && Calm(c, s, ClearingSweep(k)) && InTurn(c, s, ClearingSweep(k))
    ensures Run(c, s, ClearingSweep(k)) == s.(sweep := Cleared(s.now - c.grace, References(s.rows), k))
  {
    SweepStarts(c, s);
    SweepInspects(c, Run(c, s, StartingSweep()), k);
    RunsCompose(c, s, StartingSweep(), InspectingSweep(k));
  }

  /** And then removes it, and nothing else. */
  lemma SweepRemoves(c: Config, s: State, k: Key)
    requires s.sweep.Idle? && !Referenced(s.rows, k) && k in s.files && s.files[k] + c.grace < s.now
    ensures Runs(c, s, ClearingSweep(k) + [Unlink])
    ensures Run(c, s, ClearingSweep(k) + [Unlink])
         == s.(files := s.files - {k}, sweep := Scanning(s.now - c.grace, References(s.rows)))
  {
    SweepClears(c, s, k);
    OneStep(c, Run(c, s, ClearingSweep(k)), Unlink);
    RunsCompose(c, s, ClearingSweep(k), [Unlink]);
  }

  /** A blob that cannot be removed stays, and the sweep goes on to the next. */
  lemma SweepGoesOn(c: Config, s: State, k: Key)
    requires s.sweep.Cleared? && !Referenced(s.rows, k) && k in s.files && s.files[k] < s.sweep.cutoff
    requires k !in s.sweep.referenced
    ensures
      var events := [UnlinkFails, Stat(k)] + [Recheck, Unlink];
      && Runs(c, s, events)
      && Run(c, s, events) == s.(files := s.files - {k}, sweep := Scanning(s.sweep.cutoff, s.sweep.referenced))
  {
    var t := s.(sweep := Statted(s.sweep.cutoff, s.sweep.referenced, k, {}));
    TwoSteps(c, s, UnlinkFails, Stat(k));
    TwoSteps(c, t, Recheck, Unlink);
    RunsCompose(c, s, [UnlinkFails, Stat(k)], [Recheck, Unlink]);
  }

  /** The steps that are left when a sweep looks at no more blobs. */
  function WindingUp(s: State): seq<Event> {
    match s.sweep
    case Idle => []
    case Started(_) => [Snapshot, SweepEnd]
    case Scanning(_, _) => [SweepEnd]
    case Statted(_, _, k, _) =>
      if Referenced(s.rows, k) then [Recheck] + [SweepEnd] else [Recheck] + [UnlinkFails, SweepEnd]
    case Cleared(_, _, _) => [UnlinkFails, SweepEnd]
  }

  /** A sweep can end wherever it stands, and a crash ends it at once; then the next can begin.
      Neither touches a blob or a row. */
  lemma SweepCanEnd(c: Config, s: State)
    ensures Runs(c, s, WindingUp(s)) && Run(c, s, WindingUp(s)) == s.(sweep := Idle)
    ensures Step(c, s, Crash) == s.(uploads := map[], sweep := Idle)
    ensures s.sweep.Idle? ==> Enabled(c, s, SweepBegin)
  {
    match s.sweep
    case Idle =>
    case Started(_) => TwoSteps(c, s, Snapshot, SweepEnd);
    case Scanning(_, _) => OneStep(c, s, SweepEnd);
    case Cleared(_, _, _) => TwoSteps(c, s, UnlinkFails, SweepEnd);
    case Statted(_, _, k, _) =>
      OneStep(c, s, Recheck);
      if Referenced(s.rows, k) {
        OneStep(c, Step(c, s, Recheck), SweepEnd);
        RunsCompose(c, s, [Recheck], [SweepEnd]);
      } else {
        TwoSteps(c, Step(c, s, Recheck), UnlinkFails, SweepEnd);
        RunsCompose(c, s, [Recheck], [UnlinkFails, SweepEnd]);
      }
  }

  /** Deleting the only row of a blob leaves the blob, and a sweep later than the grace period
      that nothing disturbs removes it. */
  lemma DeletedBlobIsSwept(c: Config, s: State, entry: Entry, wait: nat)
    requires s.sweep.Idle? && entry in s.rows && Key(entry.user, s.rows[entry]) in s.files
    requires forall e :: e in s.rows && e != entry ==> Key(e.user, s.rows[e]) != Key(entry.user, s.rows[entry])
    requires s.files[Key(entry.user, s.rows[entry])] + c.grace < s.now + wait
    ensures
      var k, events := Key(entry.user, s.rows[entry]), [Delete(entry), Tick(wait)];
      && Runs(c, s, events) && entry !in Run(c, s, events).rows && Run(c, s, events).files == s.files
      && Runs(c, s, events + (ClearingSweep(k) + [Unlink]))
      && Run(c, s, events + (ClearingSweep(k) + [Unlink])).files == s.files - {k}
      && Run(c, s, events + (ClearingSweep(k) + [Unlink])).rows == s.rows - {entry}
  {
    var k, events := Key(entry.user, s.rows[entry]), [Delete(entry), Tick(wait)];
    TwoSteps(c, s, Delete(entry), Tick(wait));
    SweepRemoves(c, Run(c, s, events), k);
    RunsCompose(c, s, events, ClearingSweep(k) + [Unlink]);
  }

  /** A row committed by an upload whose blob the sweep has cleared is left without it. */
  lemma RemovalOrphans(c: Config, s: State, id: nat)
    requires id in s.uploads && s.uploads[id].promoted && s.sweep.Cleared? && s.sweep.key == s.uploads[id].key
    ensures Runs(c, s, [Unlink, Commit(id)]) && !Safe(Run(c, s, [Unlink, Commit(id)]))
    ensures Calm(c, s, [Unlink, Commit(id)]) && InTurn(c, s, [Unlink, Commit(id)])
    ensures s.now <= s.uploads[id].wrote + c.grace ==> Timed(c, s, [Unlink, Commit(id)])
  {
    TwoSteps(c, s, Unlink, Commit(id));
    var u := s.uploads[id];
    assert Entry(u.key.user, u.name) in Run(c, s, [Unlink, Commit(id)]).rows;
  }

  /** A sweep that finds the blob of a promoted upload old removes it from under the commit. */
  lemma SweepOrphans(c: Config, s: State, id: nat, k: Key)
    requires s.sweep.Idle? && id in s.uploads && s.uploads[id].promoted && s.uploads[id].key == k
    requires !Referenced(s.rows, k) && k in s.files && s.files[k] + c.grace < s.now
    ensures
      var tail := ClearingSweep(k) + [Unlink, Commit(id)];
      && Calm(c, s, tail) && InTurn(c, s, tail) && !Safe(Run(c, s, tail))
      && (s.now <= s.uploads[id].wrote + c.grace ==> Timed(c, s, tail))
  {
    SweepClears(c, s, k);
    RemovalOrphans(c, Run(c, s, ClearingSweep(k)), id);
    RunsCompose(c, s, ClearingSweep(k), [Unlink, Commit(id)]);
  }

  /** The events that orphan a row after a run that has left its blob old. */
  function Orphaning(start: seq<Event>, id: nat, k: Key): seq<Event> {
    start + (ClearingSweep(k) + [Unlink, Commit(id)])
  }

  lemma OrphansAfter(c: Config, s: State, start: seq<Event>, t: State, id: nat, k: Key)
    requires Runs(c, s, start) && Run(c, s, start) == t
    requires t.sweep.Idle? && id in t.uploads && t.uploads[id].promoted && t.uploads[id].key == k
    requires !Referenced(t.rows, k) && k in t.files && t.files[k] + c.grace < t.now
    ensures
      var all := Orphaning(start, id, k);
      && Runs(c, s, all) && !Safe(Run(c, s, all))
      && (Calm(c, s, start) ==> Calm(c, s, all)) && (InTurn(c, s, start) ==> InTurn(c, s, all))
      && (Timed(c, s, start) && t.now <= t.uploads[id].wrote + c.grace ==> Timed(c, s, all))
  {
    SweepOrphans(c, t, id, k);
    RunsCompose(c, s, start, ClearingSweep(k) + [Unlink, Commit(id)]);
  }

  /** No row is orphaned by a removal, then or by a timely commit right after it. */
  ghost predicate Harmless(c: Config, s: State)
    requires s.sweep.Cleared?
  {
    var t := Step(c, s, Unlink);
    Safe(t) && forall id :: id in t.uploads && t.uploads[id].promoted && !Expired(c, t, t.uploads[id]) ==>
      Safe(Step(c, t, Commit(id)))
  }

  lemma RemovalSpares(c: Config, s: State)
    requires Safe(s) && Owned(c, s) && s.sweep.Cleared?
    requires !Referenced(s.rows, s.sweep.key) && OnlyLate(c, s, s.sweep.key, {})
    ensures Harmless(c, s)
  {
    var t := Step(c, s, Unlink);
    assert Safe(t);
    forall id | id in t.uploads && t.uploads[id].promoted && !Expired(c, t, t.uploads[id])
      ensures Safe(Step(c, t, Commit(id)))
    {
      assert t.uploads[id].key in s.files && t.uploads[id].key != s.sweep.key;
    }
  }

  lemma CommitOrphans(c: Config, s: State, id: nat)
    requires id in s.uploads && s.uploads[id].promoted && s.uploads[id].key !in s.files
    ensures !Safe(Step(c, s, Commit(id)))
  {
    var u := s.uploads[id];
    assert Entry(u.key.user, u.name) in Step(c, s, Commit(id)).rows;
  }

  lemma RemovalHarms(c: Config, s: State)
    requires s.sweep.Cleared? && Harmless(c, s)
    ensures !Referenced(s.rows, s.sweep.key) && OnlyLate(c, s, s.sweep.key, {})
  {
    var t := Step(c, s, Unlink);
    assert forall e :: e in s.rows ==> Key(e.user, t.rows[e]) in t.files;
    forall id | id in s.uploads && s.uploads[id].promoted && s.uploads[id].key == s.sweep.key
      ensures Expired(c, s, s.uploads[id])
    {
      CommitOrphans(c, t, id);
    }
  }

  /** The exact condition for a removal: nothing names the blob and nobody who promoted
      it may still commit. */
  lemma RemovalIsExact(c: Config, s: State)
    requires Safe(s) && Owned(c, s) && s.sweep.Cleared?
    ensures Harmless(c, s) <==> !Referenced(s.rows, s.sweep.key) && OnlyLate(c, s, s.sweep.key, {})
  {
    if Harmless(c, s) {
      RemovalHarms(c, s);
    } else if !Referenced(s.rows, s.sweep.key) && OnlyLate(c, s, s.sweep.key, {}) {
      RemovalSpares(c, s);
    }
  }

  /** Two uploads of one content cross: the slow one promotes last, then gives up. */
  function FastUpload(k: Key, wait: nat): seq<Event> {
    [Begin(0, k, 10), Tick(wait)] + [Begin(1, k, 11), Promote(1)]
  }

  function SlowUpload(): seq<Event> {
    [Promote(0), Abandon(0)]
  }

  lemma FastUploadRuns(c: Config, s: State, k: Key, wait: nat)
    requires c.lanes >= 2 && s == State(0, map[], map[], map[], Idle)
    ensures Timed(c, s, FastUpload(k, wait)) && Calm(c, s, FastUpload(k, wait))
    ensures Run(c, s, FastUpload(k, wait))
         == State(wait, map[k := wait], map[],
                  map[0 := Upload(k, 10, 0, 0, true, false), 1 := Upload(k, 11, wait, wait, true, true)], Idle)
  {
    var t := State(wait, map[], map[], map[0 := Upload(k, 10, 0, 0, true, false)], Idle);
    TwoSteps(c, s, Begin(0, k, 10), Tick(wait));
    TwoSteps(c, t, Begin(1, k, 11), Promote(1));
    RunsCompose(c, s, [Begin(0, k, 10), Tick(wait)], [Begin(1, k, 11), Promote(1)]);
  }

  lemma SlowUploadRuns(c: Config, s: State, k: Key, now: int, fast: Upload)
    requires s == State(now, map[k := now], map[], map[0 := Upload(k, 10, 0, 0, true, false), 1 := fast], Idle)
    ensures Timed(c, s, SlowUpload()) && Calm(c, s, SlowUpload())
    ensures Run(c, s, SlowUpload()) == State(now, map[k := 0], map[], map[1 := fast], Idle)
  {
    TwoSteps(c, s, Promote(0), Abandon(0));
    assert Step(c, Step(c, s, Promote(0)), Abandon(0)) == State(now, map[k := 0], map[], map[1 := fast], Idle);
  }

  /** With two lanes a blob's age can go back: a slow upload promotes after a fast one
      and gives up, the sweep takes the blob for old, and the fast one still commits. */
  lemma TwoLanesLoseABlob(c: Config, s: State, k: Key)
    requires c.lanes >= 2 && s == State(0, map[], map[], map[], Idle)
    ensures Init(s)
    ensures exists events :: Timed(c, s, events) && Calm(c, s, events) && !Safe(Run(c, s, events))
  {
    var now := c.grace + 1;
    var fast, slow := FastUpload(k, now), SlowUpload();
    FastUploadRuns(c, s, k, now);
    SlowUploadRuns(c, Run(c, s, fast), k, now, Upload(k, 11, now, now, true, true));
    RunsCompose(c, s, fast, slow);
    OrphansAfter(c, s, fast + slow, Run(c, s, fast + slow), 1, k);
    assert !Safe(Run(c, s, Orphaning(fast + slow, 1, k)));
  }

  /** Every row keeps its blob over every run that meets the first two hypotheses. */
  ghost predicate LanesSuffice(c: Config) {
    forall s, events :: Init(s) && Timed(c, s, events) && Calm(c, s, events) ==> Safe(Run(c, s, events))
  }

  /** Whatever the grace period: the first two hypotheses are enough exactly if there is at
      most one upload lane. */
  lemma LanesAreExact(c: Config)
    ensures LanesSuffice(c) <==> c.lanes <= 1
  {
    if c.lanes <= 1 {
      forall s, events | Init(s) && Timed(c, s, events) && Calm(c, s, events)
        ensures Safe(Run(c, s, events))
      {
        OneLaneIsSafe(c, s, events);
      }
    } else {
      TwoLanesLoseABlob(c, State(0, map[], map[], map[], Idle), Key(0, 0));
    }
  }

  function Reupload(k: Key): seq<Event> {
    [Begin(0, k, 10), Promote(0)]
  }

  /** Under the sweep's hands an upload makes the old blob new, and it goes all the same. */
  lemma ReuploadOrphans(c: Config, t: State, k: Key)
    requires c.lanes >= 1 && t.uploads == map[] && t.sweep.Cleared? && t.sweep.key == k && k in t.files
    ensures Timed(c, t, Reupload(k) + [Unlink, Commit(0)]) && InTurn(c, t, Reupload(k) + [Unlink, Commit(0)])
    ensures !Safe(Run(c, t, Reupload(k) + [Unlink, Commit(0)]))
  {
    TwoSteps(c, t, Begin(0, k, 10), Promote(0));
    RemovalOrphans(c, Run(c, t, Reupload(k)), 0);
    RunsCompose(c, t, Reupload(k), [Unlink, Commit(0)]);
  }

  /** No number of lanes is enough if an upload may promote under the sweep's hands. */
  lemma DisturbedSweepLosesABlob(c: Config, s: State, k: Key)
    requires c.lanes >= 1 && s == State(c.grace + 1, map[k := 0], map[], map[], Idle)
    ensures Init(s)
    ensures exists events :: Timed(c, s, events) && InTurn(c, s, events) && !Safe(Run(c, s, events))
  {
    SweepClears(c, s, k);
    ReuploadOrphans(c, Run(c, s, ClearingSweep(k)), k);
    RunsCompose(c, s, ClearingSweep(k), Reupload(k) + [Unlink, Commit(0)]);
    assert !Safe(Run(c, s, ClearingSweep(k) + (Reupload(k) + [Unlink, Commit(0)])));
  }

  /** Nor if it may commit later than the grace period after its last write. */
  lemma LateCommitLosesABlob(c: Config, s: State, k: Key)
    requires c.lanes >= 1 && s == State(0, map[], map[], map[], Idle)
    ensures Init(s)
    ensures exists events :: Calm(c, s, events) && InTurn(c, s, events) && !Safe(Run(c, s, events))
  {
    var upload, wait := [Begin(0, k, 10), Promote(0)], [Tick(c.grace + 1)];
    TwoSteps(c, s, Begin(0, k, 10), Promote(0));
    OneStep(c, Run(c, s, upload), Tick(c.grace + 1));
    RunsCompose(c, s, upload, wait);
    OrphansAfter(c, s, upload + wait, Run(c, s, upload + wait), 0, k);
    assert !Safe(Run(c, s, Orphaning(upload + wait, 0, k)));
  }

  // ----- the storage object

  /** A blob the sweep may remove: no row names it and it has been idle long enough. */
  predicate Doomed(rows: map<Entry, int>, files: map<Key, int>, cutoff: int, k: Key) {
    k in files && !Referenced(rows, k) && files[k] < cutoff
  }

  /** The counters of a sweep over a directory listing. */
  function DoomedCount(rows: map<Entry, int>, files: map<Key, int>, cutoff: int, listing: seq<Key>): nat {
    if |listing| == 0 then 0
    else DoomedCount(rows, files, cutoff, listing[..|listing| - 1])
         + (if Doomed(rows, files, cutoff, listing[|listing| - 1]) then 1 else 0)
  }

  function DoomedBytes(rows: map<Entry, int>, files: map<Key, int>, cutoff: int, listing: seq<Key>,
                       size: Key -> nat): nat
  {
    if |listing| == 0 then 0
    else DoomedBytes(rows, files, cutoff, listing[..|listing| - 1], size)
         + (if Doomed(rows, files, cutoff, listing[|listing| - 1]) then size(listing[|listing| - 1]) else 0)
  }

  lemma OneLess(files: map<Key, int>, k: Key)
    requires k in files
    ensures |files - {k}| == |files| - 1
  {
    assert (files - {k}).Keys == files.Keys - {k};
    assert |files| == |files.Keys| && |files - {k}| == |(files - {k}).Keys|;
  }

  /** The bytes are the doomed blobs' sizes, added up. */
  lemma {:induction false} BytesAreSizes(rows: map<Entry, int>, files: map<Key, int>, cutoff: int, listing: seq<Key>,
                                         size: Key -> nat, each: nat)
    requires forall k :: k in listing ==> size(k) == each
    ensures DoomedBytes(rows, files, cutoff, listing, size) == each * DoomedCount(rows, files, cutoff, listing)
    decreases |listing|
  {
    if |listing| > 0 {
      BytesAreSizes(rows, files, cutoff, listing[..|listing| - 1], size, each);
    }
  }

  /** The blobs left after the sweep has gone through a listing. */
  function Swept(rows: map<Entry, int>, files: map<Key, int>, cutoff: int, listing: seq<Key>): map<Key, int> {
    if |listing| == 0 then files
    else
      var left := Swept(rows, files, cutoff, listing[..|listing| - 1]);
      if Doomed(rows, left, cutoff, listing[|listing| - 1]) then left - {listing[|listing| - 1]} else left
  }

  /** A sweep removes the doomed blobs of its listing and nothing else. */
  lemma {:induction false} SweptIsExact(rows: map<Entry, int>, files: map<Key, int>, cutoff: int, listing: seq<Key>)
    ensures
      var left := Swept(rows, files, cutoff, listing);
      forall k :: (k in left <==> k in files && !(k in listing && Doomed(rows, files, cutoff, k)))
                  && (k in left ==> left[k] == files[k])
  {
    if |listing| > 0 {
      SweptIsExact(rows, files, cutoff, listing[..|listing| - 1]);
      assert listing == listing[..|listing| - 1] + [listing[|listing| - 1]];
    }
  }

  predicate Distinct(listing: seq<Key>) {
    forall i, j :: 0 <= i < j < |listing| ==> listing[i] != listing[j]
  }

  /** Every row has its blob: the same as Safe, of the storage object's own maps. */
  ghost predicate Backed(rows: map<Entry, int>, files: map<Key, int>) {
    forall e :: e in rows ==> Key(e.user, rows[e]) in files
  }

  /** A sweep of everything leaves exactly what is not doomed, and no row without its blob. */
  ghost predicate SweptWell(rows: map<Entry, int>, files: map<Key, int>, cutoff: int, left: map<Key, int>) {
    && (forall k :: k in left <==> k in files && !Doomed(rows, files, cutoff, k))
    && (forall k :: k in left ==> left[k] == files[k])
    && (Backed(rows, files) ==> Backed(rows, left))
  }

  lemma SweepsWell(rows: map<Entry, int>, files: map<Key, int>, cutoff: int, listing: seq<Key>)
    requires forall k :: k in files ==> k in listing
    ensures SweptWell(rows, files, cutoff, Swept(rows, files, cutoff, listing))
  {
    var left := Swept(rows, files, cutoff, listing);
    SweptIsExact(rows, files, cutoff, listing);
    if Backed(rows, files) {
      forall e | e in rows
        ensures Key(e.user, rows[e]) in left
      {
        assert Referenced(rows, Key(e.user, rows[e]));
      }
    }
  }

  /** The count is that of the blobs gone. */
  lemma {:induction false} SweptCount(rows: map<Entry, int>, files: map<Key, int>, cutoff: int, listing: seq<Key>)
    requires Distinct(listing)
    ensures DoomedCount(rows, files, cutoff, listing) == |files| - |Swept(rows, files, cutoff, listing)|
  {
    if |listing| > 0 {
      var init, k := listing[..|listing| - 1], listing[|listing| - 1];
      SweptCount(rows, files, cutoff, init);
      SweptIsExact(rows, files, cutoff, init);
      assert k !in init;
      if Doomed(rows, files, cutoff, k) {
        OneLess(Swept(rows, files, cutoff, init), k);
      }
    }
  }

  /** One more blob of a listing. */
  lemma SweptStep(rows: map<Entry, int>, files: map<Key, int>, cutoff: int, listing: seq<Key>, i: nat, size: Key -> nat)
    requires Distinct(listing) && i < |listing|
    ensures
      var left, k, more := Swept(rows, files, cutoff, listing[..i]), listing[i], listing[..i + 1];
      var doomed := Doomed(rows, left, cutoff, k);
      && Swept(rows, files, cutoff, more) == (if doomed then left - {k} else left)
      && DoomedCount(rows, files, cutoff, more) ==
         DoomedCount(rows, files, cutoff, listing[..i]) + (if doomed then 1 else 0)
      && DoomedBytes(rows, files, cutoff, more, size) ==
         DoomedBytes(rows, files, cutoff, listing[..i], size) + (if doomed then size(k) else 0)
      && (k in References(rows) <==> Referenced(rows, k))
  {
    assert listing[..i + 1][..i] == listing[..i] && listing[i] !in listing[..i];
    SweptIsExact(rows, files, cutoff, listing[..i]);
  }

  class UserStorageManager {
    var files: map<Key, int>
    var rows: map<Entry, int>
    var now: int
    const size: Key -> nat

    constructor (sizeOf: Key -> nat)
      ensures files == map[] && rows == map[] && now == 0 && size == sizeOf
    {
      files, rows, now, size := map[], map[], 0, sizeOf;
    }

    /** The state of the protocol with these uploads in flight and no sweep under way. */
    function View(uploads: map<nat, Upload>, sweep: Sweep): State
      reads this
    {
      State(now, files, rows, uploads, sweep)
    }

    /** Rename the staged file over the blob: it keeps the time of its last write. */
    method PromoteStaged(c: Config, uploads: map<nat, Upload>, id: nat) returns (after: map<nat, Upload>)
      requires Enabled(c, View(uploads, Idle), Promote(id))
      modifies this`files
      ensures View(after, Idle) == Step(c, old(View(uploads, Idle)), Promote(id))
    {
      files := files[uploads[id].key := uploads[id].wrote];
      after := uploads[id := uploads[id].(promoted := true)];
    }

    /** `_commit_user_storage_file`: promote first, then the manifest row, unless the store
        refuses it; the blob of a refused upload stays for the sweep. */
    method CommitUserStorageFile(c: Config, uploads: map<nat, Upload>, id: nat, accepted: bool)
        returns (after: map<nat, Upload>)
      requires Enabled(c, View(uploads, Idle), Promote(id))
      modifies this`files, this`rows
      ensures
        var promoted := Step(c, old(View(uploads, Idle)), Promote(id));
        var outcome := if accepted then Commit(id) else Abandon(id);
        Enabled(c, promoted, outcome) && View(after, Idle) == Step(c, promoted, outcome)
    {
      after := PromoteStaged(c, uploads, id);
      var u := after[id];
      if accepted {
        rows := rows[Entry(u.key.user, u.name) := u.key.sha];
      }
      after := after - {id};
    }

    /** The loop over the listing. */
    method SweepListing(listing: seq<Key>, cutoff: int) returns (blobs: nat, bytes: nat)
      requires Distinct(listing)
      modifies this`files
      ensures files == Swept(rows, old(files), cutoff, listing)
      ensures blobs == DoomedCount(rows, old(files), cutoff, listing)
      ensures bytes == DoomedBytes(rows, old(files), cutoff, listing, size)
    {
      var referenced := References(rows);
      ghost var before := files;
      blobs, bytes := 0, 0;
      for i := 0 to |listing|
        invariant blobs == DoomedCount(rows, before, cutoff, listing[..i])
        invariant bytes == DoomedBytes(rows, before, cutoff, listing[..i], size)
        invariant files == Swept(rows, before, cutoff, listing[..i])
      {
        var k := listing[i];
        SweptStep(rows, before, cutoff, listing, i, size);
        if k in files && k !in referenced && files[k] < cutoff {
          if !Referenced(rows, k) {
            files := files - {k};
            blobs := blobs + 1;
            bytes := bytes + size(k);
          }
        }
      }
      assert listing[..|listing|] == listing;
    }

    /** One sweep, run by itself over a directory listing: exactly the doomed blobs go,
        the counters say how many and how large, and every row keeps its blob. */
    method SweepUnreferenced(listing: seq<Key>, minAge: int) returns (blobs: nat, bytes: nat)
      requires Distinct(listing) && forall k :: k in files ==> k in listing
      modifies this`files
      ensures SweptWell(rows, old(files), now - minAge, files)
      ensures blobs == DoomedCount(rows, old(files), now - minAge, listing) == |old(files)| - |files|
      ensures bytes == DoomedBytes(rows, old(files), now - minAge, listing, size)
    {
      ghost var before := files;
      blobs, bytes := SweepListing(listing, now - minAge);
      SweepsWell(rows, before, now - minAge, listing);
      SweptCount(rows, before, now - minAge, listing);
    }
  }
}
