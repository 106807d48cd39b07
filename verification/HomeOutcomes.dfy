/**
 Calls whose writes may fail.  Each attempt to write is carried out, or refused and reported to the
 program, which goes on as the code does; when the outcomes run out, the process has been stopped.
 */
module HomeOutcomes {
  import opened Wrappers
  import opened Acl
  import opened AclAccess
  import opened AclCodec
  import opened HomeTree
  import opened HomeWalk
  import opened HomeNode
  import opened HomeCrash

  datatype Outcome = Written | Refused

  /** The writes that take effect.  A refused removal of a creation marker is ignored; a refused new
      default list takes its marker back, whose own error is ignored; any other refusal ends the call. */
  function Performed(outcomes: seq<Outcome>, ws: seq<Write>): seq<Write>
    decreases |ws|
  {
    if ws == [] || outcomes == [] then []
    else if outcomes[0].Written? then [ws[0]] + Performed(outcomes[1..], ws[1..])
    else match ws[0].change
      case DropCreated => Performed(outcomes[1..], ws[1..])
      case CreateDefault(_) =>
        if |outcomes| > 1 && outcomes[1].Written? then [Write(ws[0].node, DropCreated)] else []
      case _ => []
  }

  /** The outcomes left when all writes have been dealt with; none if the call ended before. */
  function Left(outcomes: seq<Outcome>, ws: seq<Write>): Option<seq<Outcome>>
    decreases |ws|
  {
    if ws == [] then Some(outcomes)
    else if outcomes == [] then None
    else if outcomes[0].Written? || ws[0].change.DropCreated? then Left(outcomes[1..], ws[1..])
    else None
  }

  /** One list of writes after another. */
  lemma {:induction false} PerformedAppend(outcomes: seq<Outcome>, a: seq<Write>, b: seq<Write>)
    ensures match Left(outcomes, a)
            case None => Performed(outcomes, a + b) == Performed(outcomes, a) && Left(outcomes, a + b) == None
            case Some(rest) =>
              Performed(outcomes, a + b) == Performed(outcomes, a) + Performed(rest, b) && Left(outcomes, a + b) == Left(rest, b)
    decreases |a|
  {
    if a == [] {
      assert [] + b == b;
    } else if outcomes != [] {
      assert (a + b)[1..] == a[1..] + b && (a + b)[0] == a[0];
      PerformedAppend(outcomes[1..], a[1..], b);
    }
  }

  /** What takes effect at a node was planned for it, or takes back a marker there. */
  lemma {:induction false} PerformedFrom(outcomes: seq<Outcome>, ws: seq<Write>, n: NodeId)
    ensures Of(ws, n) == [] ==> Of(Performed(outcomes, ws), n) == []
    ensures forall c | c in Of(Performed(outcomes, ws), n) :: c in Of(ws, n) || c == DropCreated
    decreases |ws|
  {
    if ws != [] && outcomes != [] {
      PerformedFrom(outcomes[1..], ws[1..], n);
      if outcomes[0].Written? {
        assert ([ws[0]] + Performed(outcomes[1..], ws[1..]))[1..] == Performed(outcomes[1..], ws[1..]);
      } else if ws[0].change.CreateDefault? {
        OfOne(Write(ws[0].node, DropCreated), n);
      }
    }
  }

  /** If nothing is refused, the writes are cut off where the process is stopped. */
  lemma {:induction false} OnlyStopped(outcomes: seq<Outcome>, ws: seq<Write>)
    requires forall o | o in outcomes :: o == Written
    ensures Performed(outcomes, ws) == Cut(ws, |outcomes|)
    decreases |ws|
  {
    if ws != [] && outcomes != [] {
      assert forall o | o in outcomes[1..] :: o in outcomes;
      OnlyStopped(outcomes[1..], ws[1..]);
      assert outcomes[0] in outcomes;
      assert Cut(ws, |outcomes|) == [ws[0]] + Cut(ws[1..], |outcomes| - 1);
    }
  }

  /** A call deals with all its writes exactly if every attempt is made, and each is carried out or is the
      removal of a creation marker. */
  lemma {:induction false} GoesOnExactlyIf(outcomes: seq<Outcome>, ws: seq<Write>)
    ensures Left(outcomes, ws).Some? <==>
            |ws| <= |outcomes| && forall i | 0 <= i < |ws| :: outcomes[i] == Written || ws[i].change == DropCreated
    ensures Left(outcomes, ws).Some? ==> Left(outcomes, ws).value == outcomes[|ws|..]
    decreases |ws|
  {
    if ws != [] && outcomes != [] {
      GoesOnExactlyIf(outcomes[1..], ws[1..]);
      assert forall i | 1 <= i < |outcomes| :: outcomes[i] == outcomes[1..][i - 1];
      assert forall i | 1 <= i < |ws| :: ws[i] == ws[1..][i - 1];
    }
  }

  /** What takes effect from a refusal at `i` on: if it was of a creation marker's removal, what follows; if it
      was of a new default list, the removal of its marker, unless that is refused too; otherwise nothing. */
  function AfterRefusal(outcomes: seq<Outcome>, ws: seq<Write>, i: nat): seq<Write>
    requires i < |outcomes| && i < |ws|
  {
    match ws[i].change
    case DropCreated => Performed(outcomes[i + 1..], ws[i + 1..])
    case CreateDefault(_) => if i + 1 < |outcomes| && outcomes[i + 1] == Written then [Write(ws[i].node, DropCreated)] else []
    case _ => []
  }

  lemma AfterRefusalLater(outcomes: seq<Outcome>, ws: seq<Write>, i: nat)
    requires 0 < i < |outcomes| && i < |ws|
    ensures AfterRefusal(outcomes[1..], ws[1..], i - 1) == AfterRefusal(outcomes, ws, i)
  {
    hide Performed;
    assert outcomes[1..][i..] == outcomes[i + 1..] && ws[1..][i..] == ws[i + 1..];
    assert i + 1 < |outcomes| ==> outcomes[1..][i] == outcomes[i + 1];
  }

  /** The first refusal: everything before it takes effect, and what it leads to. */
  lemma {:induction false} FirstRefusal(outcomes: seq<Outcome>, ws: seq<Write>, i: nat)
    requires i < |outcomes| && i < |ws| && outcomes[i] == Refused && forall j | 0 <= j < i :: outcomes[j] == Written
    ensures Performed(outcomes, ws) == ws[..i] + AfterRefusal(outcomes, ws, i)
  {
    if i == 0 {
      RefusedFirst(outcomes, ws);
      hide Performed, AfterRefusal;
      assert ws[..0] + Performed(outcomes, ws) == Performed(outcomes, ws);
    } else {
      assert Performed(outcomes, ws) == [ws[0]] + Performed(outcomes[1..], ws[1..]);
      hide Performed, AfterRefusal;
      FirstRefusal(outcomes[1..], ws[1..], i - 1);
      AfterRefusalLater(outcomes, ws, i);
      assert ws[..i] == [ws[0]] + ws[1..][..i - 1];
    }
  }

  lemma RefusedFirst(outcomes: seq<Outcome>, ws: seq<Write>)
    requires outcomes != [] && ws != [] && outcomes[0] == Refused
    ensures Performed(outcomes, ws) == AfterRefusal(outcomes, ws, 0)
  {
  }

  /** A new default list that is refused leaves neither list nor marker, if its marker can be taken back. */
  lemma RefusedDefaultLeavesNothing(s: Store, uid: u32, id: NodeId, data: Bytes, rest: seq<Outcome>)
    ensures var ws := [Write(id, MarkCreated), Write(id, CreateDefault(data))];
            var r := PerformAll(s, uid, Performed([Written, Refused, Written] + rest, ws));
            At(r, id) == At(s, id).(created := At(s, id).created - {uid})
            && Left([Written, Refused, Written] + rest, ws).None?
  {
    var ws := [Write(id, MarkCreated), Write(id, CreateDefault(data))];
    var outcomes := [Written, Refused, Written] + rest;
    FirstRefusal(outcomes, ws, 1);
    GoesOnExactlyIf(outcomes, ws);
    var done := [ws[0], Write(id, DropCreated)];
    assert Performed(outcomes, ws) == done;
    assert done[1..] == [Write(id, DropCreated)] && done[1..][1..] == [];
    var marked := Perform(s, uid, ws[0]);
    assert PerformAll(s, uid, done) == PerformAll(marked, uid, done[1..]) == Perform(marked, uid, Write(id, DropCreated));
    assert At(s, id).created + {uid} - {uid} == At(s, id).created - {uid};
  }

  lemma PerformUpTo(s: Store, v: Store, uid: u32, w: Write)
    requires UpToCreated(s, v)
    ensures UpToCreated(Perform(s, uid, w), Perform(v, uid, w))
    ensures w.change.DropCreated? || w.change.MarkCreated? ==> UpToCreated(Perform(s, uid, w), v) && UpToCreated(s, Perform(v, uid, w))
  {
    var t, u := Perform(s, uid, w), Perform(v, uid, w);
    forall id
      ensures var (x, y) := (At(t, id), At(u, id)); x.access == y.access && x.default_ == y.default_ && x.complete == y.complete
    {
      var (x, y) := (At(s, id), At(v, id));
      assert x.access == y.access && x.default_ == y.default_ && x.complete == y.complete;
    }
  }

  /** Whatever is refused, and wherever the process is stopped: apart from creation markers the result is
      that of an interruption. */
  lemma {:induction false} RefusalsAreInterruptions(s: Store, v: Store, uid: u32, outcomes: seq<Outcome>, ws: seq<Write>) returns (cut: nat)
    requires UpToCreated(s, v)
    ensures cut <= |ws| && UpToCreated(PerformAll(s, uid, Cut(ws, cut)), PerformAll(v, uid, Performed(outcomes, ws)))
    ensures Left(outcomes, ws).Some? ==> cut == |ws|
    decreases |ws|
  {
    hide UpToCreated, Perform;
    if ws == [] || outcomes == [] {
      cut := 0;
    } else if outcomes[0].Written? || ws[0].change.DropCreated? {
      PerformUpTo(s, v, uid, ws[0]);
      var u := if outcomes[0].Written? then Perform(v, uid, ws[0]) else v;
      var rest := RefusalsAreInterruptions(Perform(s, uid, ws[0]), u, uid, outcomes[1..], ws[1..]);
      cut := rest + 1;
      CutMore(ws, rest);
      if outcomes[0].Written? {
        assert Performed(outcomes, ws)[1..] == Performed(outcomes[1..], ws[1..]);
      }
    } else {
      cut := 0;
      PerformUpTo(s, v, uid, Write(ws[0].node, DropCreated));
      assert [Write(ws[0].node, DropCreated)][1..] == [];
    }
  }

  lemma CutMore<T>(ws: seq<T>, cut: nat)
    requires ws != [] && cut <= |ws| - 1
    ensures Cut(ws, cut + 1) != [] && Cut(ws, cut + 1)[0] == ws[0] && Cut(ws, cut + 1)[1..] == Cut(ws[1..], cut)
  {
  }

  // Whole calls.

  /** One call for one user, with the outcomes of its attempts to write. */
  datatype Trial = Trial(action: Action, outcomes: seq<Outcome>) {
    /** Whether the removal of the old marker takes effect, whose error a grant ignores. */
    predicate Clears() {
      !(action == Grant && outcomes != [] && outcomes[0] == Refused)
    }

    function Remaining(): seq<Outcome> {
      if Clears() then outcomes else outcomes[1..]
    }
  }

  function TrialWrites(s: Store, home: Tree, uid: u32, trial: Trial): seq<Write> {
    ManagePlan(s, home, trial.action, uid, trial.Clears()).writes
  }

  function AfterTrial(s: Store, home: Tree, uid: u32, trial: Trial): Store {
    PerformAll(s, uid, Performed(trial.Remaining(), TrialWrites(s, home, uid, trial)))
  }

  /** A grant goes on when the removal of the old marker is refused: if everything else is carried out, it is
      complete. */
  lemma GrantGoesOn(s: Store, home: Tree, uid: u32, rest: seq<Outcome>)
    requires |ManagePlan(s, home, Grant, uid, false).writes| <= |rest| && forall o | o in rest :: o == Written
    ensures AfterTrial(s, home, uid, Trial(Grant, [Refused] + rest)) == PerformAll(s, uid, ManagePlan(s, home, Grant, uid, false).writes)
  {
    var trial := Trial(Grant, [Refused] + rest);
    assert !trial.Clears() && trial.Remaining() == rest;
    hide ManagePlan;
    OnlyStopped(rest, TrialWrites(s, home, uid, trial));
  }

  /** Every call is an attempt that was cut off somewhere, apart from creation markers; if nothing was
      refused, it is exactly that. */
  lemma TrialIsAttempt(s: Store, home: Tree, uid: u32, trial: Trial) returns (a: Attempt)
    ensures a.action == trial.action && a.clears == trial.Clears()
    ensures UpToCreated(After(s, home, uid, a), AfterTrial(s, home, uid, trial))
    ensures Left(trial.Remaining(), TrialWrites(s, home, uid, trial)).Some? ==> a.cut == |TrialWrites(s, home, uid, trial)|
    ensures (forall o | o in trial.outcomes :: o == Written) ==>
              AfterTrial(s, home, uid, trial) == After(s, home, uid, Attempt(trial.action, |trial.outcomes|, true))
  {
    hide ManagePlan, UpToCreated, Performed, Left, PerformAll, Cut;
    SameUpTo(s);
    var cut := RefusalsAreInterruptions(s, s, uid, trial.Remaining(), TrialWrites(s, home, uid, trial));
    a := Attempt(trial.action, cut, trial.Clears());
    if forall o | o in trial.outcomes :: o == Written {
      assert trial.outcomes != [] ==> trial.outcomes[0] in trial.outcomes;
      OnlyStopped(trial.outcomes, TrialWrites(s, home, uid, trial));
    }
  }

  function AfterTrials(s: Store, home: Tree, uid: u32, trials: seq<Trial>): Store
    decreases |trials|
  {
    if trials == [] then s else AfterTrials(AfterTrial(s, home, uid, trials[0]), home, uid, trials[1..])
  }

  /** Every grant removed the old marker, or found none. */
  predicate AllCleared(s: Store, home: Tree, uid: u32, trials: seq<Trial>)
    decreases |trials|
  {
    trials == [] ||
    ((trials[0].Clears() || uid !in At(s, home.id).complete) && AllCleared(AfterTrial(s, home, uid, trials[0]), home, uid, trials[1..]))
  }

  lemma {:induction false} TrialsStayHonest(s: Store, home: Tree, uid: u32, trials: seq<Trial>)
    requires Simple(home) && SoundStore(s) && Honest(s, home, uid) && AllCleared(s, home, uid, trials)
    ensures Honest(AfterTrials(s, home, uid, trials), home, uid) && SoundStore(AfterTrials(s, home, uid, trials))
    decreases |trials|
  {
    if trials != [] {
      var a := TrialIsAttempt(s, home, uid, trials[0]);
      assert Cleared(s, home, uid, a);
      hide Honest, After, AfterTrial, SoundStore, Simple, UpToCreated, Cleared, Trial.Clears;
      StaysSound(s, home, uid, a);
      StaysHonest(s, home, uid, a);
      CreatedDoesNotMatter(After(s, home, uid, a), AfterTrial(s, home, uid, trials[0]), home, uid);
      TrialsStayHonest(AfterTrial(s, home, uid, trials[0]), home, uid, trials[1..]);
    }
  }

  /** Crash consistency for calls as they run: if in the end the status is "enabled", the user has the
      required access to every file and directory of the boundary, whatever was refused and wherever the
      calls were stopped. */
  lemma EnabledAfterTrials(s: Store, home: Tree, uid: u32, trials: seq<Trial>, x: Tree, f: File, c: Credential)
    requires Simple(home) && SoundStore(s) && uid !in At(s, home.id).complete && AllCleared(s, home, uid, trials)
    requires StatusOf(At(AfterTrials(s, home, uid, trials), home.id), uid) == Enabled
    requires x in Covered(home, home.device)
    ensures var y := At(AfterTrials(s, home, uid, trials), x.id);
            && Granted(x, y, uid)
            && (c.uid == uid && uid != f.owner ==> Allows(Parse(y.access.value).value, f, c, Required(x)))
  {
    assert Honest(s, home, uid) by { hide ListHas, AllGranted; }
    TrialsStayHonest(s, home, uid, trials);
    var y := At(AfterTrials(s, home, uid, trials), x.id);
    hide Simple, AfterTrials, AllCleared, Covered, ListHas, Allows, StatusOf, Required, Sound;
    assert Granted(x, y, uid);
    assert Sound(y);
    if c.uid == uid && uid != f.owner {
      GrantedIsAllowed(x, y, uid, f, c);
    }
  }

  lemma SameUpTo(s: Store)
    ensures UpToCreated(s, s)
  {
  }

  /** Of the changes planned for a node, those that may take effect: as many as were reached, without
      refused removals of the creation marker, and with the marker taken back where a new default list
      was refused. */
  predicate Possible(planned: seq<Change>, done: seq<Change>)
    decreases |planned|
  {
    || done == []
    || (planned != [] && planned[0] == done[0] && Possible(planned[1..], done[1..]))
    || (planned != [] && planned[0].DropCreated? && Possible(planned[1..], done))
    || (planned != [] && planned[0].CreateDefault? && done == [DropCreated])
  }

  lemma PossibleHead(c: Change, planned: seq<Change>, done: seq<Change>)
    requires Possible(planned, done)
    ensures Possible([c] + planned, [c] + done)
    ensures c.DropCreated? ==> Possible([c] + planned, done)
    ensures c.CreateDefault? ==> Possible([c] + planned, [DropCreated])
  {
    assert ([c] + planned)[1..] == planned && ([c] + done)[1..] == done;
  }

  lemma {:induction false} PossibleAt(outcomes: seq<Outcome>, ws: seq<Write>, n: NodeId)
    ensures Possible(Of(ws, n), Of(Performed(outcomes, ws), n))
    decreases |ws|
  {
    hide Possible, Of, Performed;
    if ws == [] || outcomes == [] {
      NothingPerformed(outcomes, ws, n);
    } else {
      PossibleAt(outcomes[1..], ws[1..], n);
      PerformedHead(outcomes, ws);
      OfHead(ws, n);
      var planned, done := Of(ws[1..], n), Of(Performed(outcomes[1..], ws[1..]), n);
      assert [] + planned == planned && [] + done == done;
      if outcomes[0].Written? {
        OfHead(Performed(outcomes, ws), n);
      }
      OfOne(Write(ws[0].node, DropCreated), n);
      if ws[0].node == n {
        PossibleHead(ws[0].change, planned, done);
      }
      AlwaysPossible(Of(ws, n));
    }
  }

  lemma AlwaysPossible(planned: seq<Change>)
    ensures Possible(planned, [])
  {
  }

  lemma NothingPerformed(outcomes: seq<Outcome>, ws: seq<Write>, n: NodeId)
    requires ws == [] || outcomes == []
    ensures Possible(Of(ws, n), Of(Performed(outcomes, ws), n))
  {
  }

  lemma PerformedHead(outcomes: seq<Outcome>, ws: seq<Write>)
    requires ws != [] && outcomes != []
    ensures outcomes[0].Written? ==>
              var p := Performed(outcomes, ws); p != [] && p[0] == ws[0] && p[1..] == Performed(outcomes[1..], ws[1..])
    ensures outcomes[0].Refused? && ws[0].change.DropCreated? ==> Performed(outcomes, ws) == Performed(outcomes[1..], ws[1..])
    ensures outcomes[0].Refused? && !ws[0].change.DropCreated? ==>
              Performed(outcomes, ws) == [] || (ws[0].change.CreateDefault? && Performed(outcomes, ws) == [Write(ws[0].node, DropCreated)])
  {
  }
}
