/**
 * Saving and loading sessions against one session file (save_session and load_session of
 * client/session_store.py). Any number of in-memory copies of the session may exist; a load and a
 * save are each one atomic step.
 */
module Saves {
  import opened Common
  import opened SessionStore

  /** The version a file claims; a file without one counts as version 0. */
  function FileVersion(d: SessionDict): int {
    if d.version.Some? then d.version.value else 0
  }

  predicate RollsBack(file: Option<SessionDict>, s: Session) {
    file.Some? && FileVersion(file.value) > s.version
  }

  function Bumped(s: Session): Session {
    s.(version := s.version + 1)
  }

  class SessionFile {
    var content: Option<SessionDict>

    constructor ()
      ensures content == None
    {
      content := None;
    }

    /** save_session: a refused save changes neither the file nor the session in memory. */
    method Save(copy: SessionCopy) returns (ok: bool)
      modifies this, copy
      ensures ok <==> !RollsBack(old(content), old(copy.state))
      ensures ok ==> copy.state == Bumped(old(copy.state)) && content == Some(ToDict(copy.state))
      ensures !ok ==> copy.state == old(copy.state) && content == old(content)
    {
      var current := copy.state.version;
      if content.Some? {
        if FileVersion(content.value) > current {
          return false;
        }
      }
      copy.state := copy.state.(version := current + 1);
      content := Some(ToDict(copy.state));
      return true;
    }

    /** load_session: nothing without a file, an error for a file that cannot be read. */
    method Load(maxKeys: nat) returns (r: Result<Option<Session>>)
      ensures content.None? ==> r == Ok(None)
      ensures content.Some? ==> r.Ok? == FromDict(content.value, maxKeys).Ok?
      ensures content.Some? && r.Ok? ==> r.value == Some(FromDict(content.value, maxKeys).value)
    {
      if content.None? {
        return Ok(None);
      }
      var s := FromDict(content.value, maxKeys);
      return if s.Ok? then Ok(Some(s.value)) else Err;
    }
  }

  class SessionCopy {
    var state: Session

    constructor (s: Session)
      ensures state == s
    {
      state := s;
    }
  }

  // Many copies, one file ---------------------------------------------------------------------------

  /**
   * A copy in memory. `seen` is the history of the file up to the write this copy was loaded from
   * or last saved as; the program itself keeps only the version number.
   */
  datatype Copy = Copy(state: Session, seen: seq<Session>)

  datatype World = World(file: Option<SessionDict>, copies: seq<Copy>, history: seq<Session>)

  datatype Action =
    | Create(s: Session)              // a session straight from the handshake
    | Load(maxKeys: nat)
    | Use(i: nat, s: Session)         // ratchet operations on a copy
    | Save(i: nat)

  const EMPTY := World(None, [], [])

  function SaveStep(w: World, i: nat): World
    requires i < |w.copies|
  {
    var c := w.copies[i];
    if RollsBack(w.file, c.state) then w else
      var s := Bumped(c.state);
      World(Some(ToDict(s)), w.copies[i := Copy(s, c.seen + [s])], w.history + [s])
  }

  function Step(w: World, a: Action): World
    requires (a.Use? || a.Save?) ==> a.i < |w.copies|
  {
    match a
    case Create(s) => w.(copies := w.copies + [Copy(s, [])])
    case Load(maxKeys) =>
      if w.file.None? || FromDict(w.file.value, maxKeys).Err? then w
      else w.(copies := w.copies + [Copy(FromDict(w.file.value, maxKeys).value, w.history)])
    case Use(i, s) => w.(copies := w.copies[i := w.copies[i].(state := s)])
    case Save(i) => SaveStep(w, i)
  }

  /** New sessions have version 1, and using a session leaves its version alone. */
  ghost predicate Allowed(w: World, a: Action) {
    match a
    case Create(s) => WellFormed(s) && s.version == 1
    case Load(_) => true
    case Use(i, s) => i < |w.copies| && WellFormed(s) && s.version == w.copies[i].state.version
    case Save(i) => i < |w.copies|
  }

  ghost predicate IsStep(w: World, a: Action, next: World) {
    Allowed(w, a) && next == Step(w, a)
  }

  ghost predicate IsRun(run: seq<World>, actions: seq<Action>) {
    && |run| == |actions| + 1 && run[0] == EMPTY
    && forall k :: 0 <= k < |actions| ==> IsStep(run[k], actions[k], run[k + 1])
  }

  ghost predicate CopyOk(w: World, c: Copy) {
    WellFormed(c.state) && c.seen <= w.history && c.state.version == |c.seen| + 1
  }

  ghost predicate FileOk(w: World) {
    if w.history == [] then w.file == None
    else
      var last := w.history[|w.history| - 1];
      w.file == Some(ToDict(last)) && WellFormed(last) && last.version == |w.history| + 1
  }

  ghost predicate Inv(w: World) {
    FileOk(w) && forall i :: 0 <= i < |w.copies| ==> CopyOk(w, w.copies[i])
  }

  /** A save is refused exactly by a file that claims a higher version; one without a version never does. */
  lemma RollsBackIff(file: Option<SessionDict>, s: Session)
    requires s.version >= 1
    ensures RollsBack(file, s) <==> file.Some? && file.value.version.Some? && file.value.version.value > s.version
  {
  }

  /** Reading the file gives back the last write, whatever limit lets it through. */
  lemma LoadIsLastWrite(w: World, maxKeys: nat)
    requires FileOk(w) && w.history != []
    ensures var last := w.history[|w.history| - 1];
            FromDict(w.file.value, maxKeys) ==
            if |last.skipped| <= maxKeys then Ok(last.(maxKeys := maxKeys)) else Err
  {
    var last := w.history[|w.history| - 1];
    SessionRoundTrip(last);
    var wide := last.(maxKeys := if |last.skipped| <= maxKeys then maxKeys else |last.skipped|);
    SessionRoundTrip(wide);
    assert ToDict(wide) == ToDict(last);
  }

  /** A save goes through exactly when the copy has seen everything that was ever written. */
  lemma SaveSucceedsIffCurrent(w: World, i: nat)
    requires Inv(w) && i < |w.copies|
    ensures !RollsBack(w.file, w.copies[i].state) <==> w.copies[i].seen == w.history
  {
    var c := w.copies[i];
    assert CopyOk(w, c);
    if |c.seen| == |w.history| {
      assert w.history[..|c.seen|] == w.history;
    }
  }

  lemma SaveKeepsInv(w: World, i: nat)
    requires Inv(w) && i < |w.copies|
    ensures Inv(SaveStep(w, i))
  {
    SaveSucceedsIffCurrent(w, i);
    assert CopyOk(w, w.copies[i]);
    var next := SaveStep(w, i);
    forall j | 0 <= j < |next.copies|
      ensures CopyOk(next, next.copies[j])
    {
      assert CopyOk(w, w.copies[j]);
    }
  }

  /** One more copy, or one copy replaced, beside the same file. */
  lemma CopiesKeepInv(w: World, copies: seq<Copy>, at: nat)
    requires Inv(w) && at < |copies| && CopyOk(w, copies[at])
    requires forall j :: 0 <= j < |copies| && j != at ==> j < |w.copies| && copies[j] == w.copies[j]
    ensures Inv(w.(copies := copies))
  {
  }

  lemma LoadKeepsInv(w: World, maxKeys: nat, c: Copy)
    requires Inv(w) && w.file.Some? && FromDict(w.file.value, maxKeys) == Ok(c.state) && c.seen == w.history
    ensures Inv(w.(copies := w.copies + [c]))
  {
    LoadIsLastWrite(w, maxKeys);
    CopiesKeepInv(w, w.copies + [c], |w.copies|);
  }

  lemma StepKeepsInv(w: World, a: Action, next: World)
    requires Inv(w) && IsStep(w, a, next)
    ensures Inv(next)
  {
    match a {
      case Create(s) => CopiesKeepInv(w, next.copies, |w.copies|);
      case Load(maxKeys) =>
        if next != w {
          LoadKeepsInv(w, maxKeys, next.copies[|w.copies|]);
        }
      case Use(i, s) =>
        assert CopyOk(w, w.copies[i]);
        CopiesKeepInv(w, next.copies, i);
      case Save(i) => SaveKeepsInv(w, i);
    }
  }

  lemma {:induction false} RunKeepsInv(run: seq<World>, actions: seq<Action>, k: nat)
    requires IsRun(run, actions) && k <= |actions|
    ensures Inv(run[k])
  {
    if k > 0 {
      RunKeepsInv(run, actions, k - 1);
      assert IsStep(run[k - 1], actions[k - 1], run[k]);
      StepKeepsInv(run[k - 1], actions[k - 1], run[k]);
    }
  }

  /**
   * Over every interleaving: a save is accepted exactly when its copy has seen every earlier write,
   * an accepted save extends the history by the copy's own state, and the version on disk is one
   * more than the number of writes.
   */
  lemma SavesAreCompareAndSwap(run: seq<World>, actions: seq<Action>, k: nat)
    requires IsRun(run, actions) && k < |actions|
    ensures var w, next := run[k], run[k + 1];
            && (actions[k].Save? ==>
                  var c := w.copies[actions[k].i];
                  next.history == if c.seen == w.history then c.seen + [Bumped(c.state)] else w.history)
            && (!actions[k].Save? ==> next.history == w.history && next.file == w.file)
            && (w.file.Some? ==> FileVersion(w.file.value) == |w.history| + 1)
            && (w.file.None? <==> w.history == [])
  {
    RunKeepsInv(run, actions, k);
    assert IsStep(run[k], actions[k], run[k + 1]);
    if actions[k].Save? {
      SaveSucceedsIffCurrent(run[k], actions[k].i);
    }
  }

  lemma {:induction false} HistoryGrows(run: seq<World>, actions: seq<Action>, j: nat, k: nat)
    requires IsRun(run, actions) && j <= k <= |actions|
    ensures run[j].history <= run[k].history
  {
    if j < k {
      HistoryGrows(run, actions, j, k - 1);
      StepGrows(run[k - 1], actions[k - 1], run[k]);
      PrefixOfPrefix(run[j].history, run[k - 1].history, run[k].history);
    }
  }

  lemma StepGrows(w: World, a: Action, next: World)
    requires IsStep(w, a, next)
    ensures w.history <= next.history
  {
  }

  lemma PrefixOfPrefix(a: seq<Session>, b: seq<Session>, c: seq<Session>)
    requires a <= b <= c
    ensures a <= c
  {
  }

  lemma SameHistorySameFile(v: World, w: World)
    requires Inv(v) && Inv(w) && v.history <= w.history && v.file.Some?
    ensures w.file.Some? && FileVersion(v.file.value) <= FileVersion(w.file.value)
    ensures FileVersion(v.file.value) == FileVersion(w.file.value) ==> v.file == w.file
  {
  }

  /** The version on disk never decreases, and the file only changes together with its version. */
  lemma DiskNeverRollsBack(run: seq<World>, actions: seq<Action>, j: nat, k: nat)
    requires IsRun(run, actions) && j <= k <= |actions| && run[j].file.Some?
    ensures run[k].file.Some? && FileVersion(run[j].file.value) <= FileVersion(run[k].file.value)
    ensures FileVersion(run[j].file.value) == FileVersion(run[k].file.value) ==> run[j].file == run[k].file
  {
    RunKeepsInv(run, actions, j);
    RunKeepsInv(run, actions, k);
    HistoryGrows(run, actions, j, k);
    SameHistorySameFile(run[j], run[k]);
  }
}
