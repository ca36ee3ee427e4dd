/** What holds of every run of the orchestrator: any interleaving of creates,
    drives and redrives, any answers of the outside, any crashes. */
module Guarantees {
  import opened Wrappers
  import opened Text
  import opened Lifecycle
  import opened ValueObjects
  import opened Resources
  import opened Values
  import opened Aggregate
  import opened Persistence
  import opened Ports
  import opened Admission
  import opened PlatformLayer
  import opened Publisher
  import opened Driver
  import opened Invariant
  import opened Outcome
  import opened Redrive
  import opened System
  import R = Reserved
  import W = Allowlist

  // --- One driver ---

  // A deployment is driven by at most one drive, and locked exactly while it is.
  lemma {:induction false} OneDriver(s: Setup, actions: seq<Action>, g: nat, h: nat, id: string)
    ensures
      var st := Run(s, actions);
      && (g in st.drives && h in st.drives && st.drives[g].id == st.drives[h].id ==> g == h)
      && (id in st.inflight <==> exists d :: d in st.drives && st.drives[d].id == id)
  {
    RunKeeps(s, actions);
    UnfoldInv(s, Run(s, actions), id);
    hide Inv, Run, RecordOk, ActiveOk, InOrder;
  }

  // --- The store ---

  // The key a drive saves to is the one it loaded, although SetMetadata derives
  // the id anew; and after a successful save FindByID returns the aggregate the
  // drive holds.
  lemma {:induction false} SavesAreReloaded(s: Setup, actions: seq<Action>, g: nat, a: Answer)
    requires g in Run(s, actions).drives
    requires Run(s, actions).drives[g].Driving? && Saves(Run(s, actions).drives[g].pc)
    ensures
      var drive := Run(s, actions).drives[g];
      var n := Next(s, Run(s, actions), Move(g, a));
      && drive.d.id == drive.id
      && (a.ok ==> FindByID(n.docs, drive.id) == Ok(drive.d))
  {
    var st := Run(s, actions);
    RunKeeps(s, actions);
    hide Run, Inv, DriveStep, FindByID, Admit;
    SaveReloads(s, st, g, a);
  }

  lemma {:induction false} SaveReloads(s: Setup, st: State, g: nat, a: Answer)
    requires Inv(s, st) && g in st.drives && st.drives[g].Driving? && Saves(st.drives[g].pc)
    ensures
      var drive := st.drives[g];
      var n := DriveStep(s.cfg, Conf(drive, st.docs, st.trace), a);
      drive.d.id == drive.id && (a.ok ==> FindByID(n.docs, drive.id) == Ok(drive.d))
  {
    var drive := st.drives[g];
    hide Inv, RecordOk, InOrder, LocksOk, DeploymentOk, DriveStep, FindByID, DriveOk, Next, Effects, Pushes;
    UnfoldInv(s, st, drive.id);
    MoveStep(s, st, g, a);
    StoreAdvances(s.cfg, st.created[drive.id].origin, Conf(drive, st.docs, st.trace), a);
  }

  // Every stored record loads, is sound, and claims only what has happened
  // outside: a HEALTHY or COMPLETED one was seen healthy by a poll of its app.
  // Only FAILED and COMPLETED records carry an error.
  lemma {:induction false} StoredIsSound(s: Setup, actions: seq<Action>, id: string)
    requires id in Run(s, actions).docs
    ensures
      var st := Run(s, actions);
      && FindByID(st.docs, id).Ok?
      && var a := FindByID(st.docs, id).value;
      && WellFormed(a) && Evidence(a, st.trace)
      && id in st.created && a.origin == st.created[id].origin && a.id == id
      && (IsHealthy(a.status) ==> WasHealthy(id, AppName(a.origin), st.trace))
      && (a.errMsg != "" ==> a.status == Failed || a.status == Completed)
  {
    RunKeeps(s, actions);
    UnfoldInv(s, Run(s, actions), id);
    hide Inv, Run, InOrder, FromDoc, ToDoc, ValidOrigin, AllProper, Pushes, CreatedOk, NewArgoAppName;
  }

  // So a redrive of any stored record passes every guard of run.
  lemma {:induction false} RedriveNeverCorrupt(s: Setup, actions: seq<Action>, id: string, now: Timestamp)
    requires id in Run(s, actions).docs
    ensures
      match FindByID(Run(s, actions).docs, id)
      case Err(_) => false
      case Ok(a) =>
        !IsTerminal(a.status) ==>
          var drive := Enter(a, now, id);
          if a.status == ChartComposed || a.status == Degraded then drive == Returning(id, None)
          else drive.Driving? && !drive.pc.SavingFailure?
  {
    hide Run, WellFormed, Evidence, Enter, Dispatch, FindByID, WasHealthy, AppName, IsHealthy;
    StoredIsSound(s, actions, id);
    var a := FindByID(Run(s, actions).docs, id).value;
    GuardsNeverFire(a, now, id);
  }

  // One action moves a stored status along the closure, or not at all.
  lemma {:induction false} ActionAdvances(s: Setup, st: State, action: Action, id: string)
    requires Inv(s, st) && id in st.docs
    ensures
      var n := Next(s, st, action);
      id in n.docs && FindByID(st.docs, id).Ok? && FindByID(n.docs, id).Ok?
      && Reaches(FindByID(st.docs, id).value.status, FindByID(n.docs, id).value.status)
  {
    hide Inv, FromDoc, ToDoc, WellFormed, Evidence, Pushes, CreatedOk, AllProper, Admit, InOrder, DriveStep,
      Reaches, SaveAnswered, LocksOk, DeploymentOk, Effects, ValidOrigin, Storable;
    UnfoldInv(s, st, id);
    var n := Next(s, st, action);
    ReachesSelf(FindByID(st.docs, id).value.status);
    if action.Move? && action.g in st.drives {
      var drive := st.drives[action.g];
      UnfoldInv(s, st, drive.id);
      if drive.id in st.created {
        MoveStep(s, st, action.g, action.answer);
        if drive.id == id {
          StoreAdvances(s.cfg, st.created[id].origin, Conf(drive, st.docs, st.trace), action.answer);
        } else {
          assert Stored(n.docs, id) == Stored(st.docs, id);
        }
      } else {
        StrangerReturns(s.cfg, drive, st.docs, st.trace, action.answer);
      }
    } else if action.Create? {
      CreateKeepsOthers(s, st, action, id);
    }
  }

  lemma {:induction false} CreateKeepsOthers(s: Setup, st: State, action: Action, id: string)
    requires action.Create? && Inv(s, st) && id in st.docs
    ensures Stored(Next(s, st, action).docs, id) == Stored(st.docs, id)
  {
    UnfoldInv(s, st, id);
    hide Inv, FromDoc, ToDoc, StoreOk, Pushes, CreatedOk, AllProper, Admit, InOrder, ActiveOk, LocksOk;
  }

  // No transition is lost or undone: between any two moments of a run a stored
  // status has only moved along the transition relation.
  lemma {:induction false} StatusNeverGoesBack(s: Setup, before: seq<Action>, more: seq<Action>, id: string)
    requires id in Run(s, before).docs
    ensures
      var early, late := Run(s, before).docs, Run(s, before + more).docs;
      id in late && FindByID(early, id).Ok? && FindByID(late, id).Ok?
      && Reaches(FindByID(early, id).value.status, FindByID(late, id).value.status)
    decreases |more|
  {
    hide FindByID, Next, Inv;
    if more == [] {
      assert before + more == before;
      StoredIsSound(s, before, id);
      ReachesSelf(FindByID(Run(s, before).docs, id).value.status);
    } else {
      var front, last := more[..|more| - 1], more[|more| - 1];
      assert (before + more)[..|before + more| - 1] == before + front;
      StatusNeverGoesBack(s, before, front, id);
      RunKeeps(s, before + front);
      ActionAdvances(s, Run(s, before + front), last, id);
      ReachesTransitive(FindByID(Run(s, before).docs, id).value.status,
                        FindByID(Run(s, before + front).docs, id).value.status,
                        FindByID(Run(s, before + more).docs, id).value.status);
    }
  }

  // --- Statuses no drive leaves ---

  // A deployment stored at CHART_COMPOSED or DEGRADED with no drive at work on
  // it: a crash between the save and the push leaves one behind.
  ghost predicate Stranded(st: State, id: string) {
    && FindByID(st.docs, id).Ok?
    && (FindByID(st.docs, id).value.status == ChartComposed || FindByID(st.docs, id).value.status == Degraded)
    && forall g :: g in st.drives && st.drives[g].id == id ==> !st.drives[g].Driving?
  }

  lemma {:induction false} StrandedStays(s: Setup, st: State, action: Action, id: string)
    requires Inv(s, st) && Stranded(st, id)
    ensures Stranded(Next(s, st, action), id)
    ensures Stored(Next(s, st, action).docs, id) == Stored(st.docs, id)
    ensures Pushes(id, Next(s, st, action).trace) == Pushes(id, st.trace)
  {
    hide Inv, FromDoc, Admit, SaveAnswered, DriveStep, Pushes, RecordOk, ActiveOk, InOrder, LocksOk,
      DeploymentOk, Effects;
    if action.Create? {
      CreateKeepsOthers(s, st, action, id);
    } else if action.Move? && action.g in st.drives {
      var drive := st.drives[action.g];
      UnfoldInv(s, st, drive.id);
      if drive.id == id {
        StoredHasMetadata(s, st, id);
        StrandedDrive(s.cfg, Conf(drive, st.docs, st.trace), action.answer);
      } else if drive.id in st.created {
        MoveStep(s, st, action.g, action.answer);
        assert Stored(Next(s, st, action).docs, id) == Stored(st.docs, id);
      } else {
        StrangerStays(s, st, action.g, action.answer);
      }
    }
  }

  lemma {:induction false} StoredHasMetadata(s: Setup, st: State, id: string)
    requires Inv(s, st) && FindByID(st.docs, id).Ok? && HasMetadata(FindByID(st.docs, id).value.status)
    ensures FindByID(st.docs, id).value.metadata.Some?
  {
    UnfoldInv(s, st, id);
    hide Inv, FromDoc, CreatedOk, InOrder, LocksOk, ActiveOk, Evidence, Faithful;
  }

  lemma {:induction false} StrangerStays(s: Setup, st: State, g: nat, a: Answer)
    requires Inv(s, st) && g in st.drives && st.drives[g].id !in st.created
    ensures
      var n := DriveStep(s.cfg, Conf(st.drives[g], st.docs, st.trace), a);
      n.docs == st.docs && n.trace == st.trace && n.drive.id == st.drives[g].id && !n.drive.Driving?
  {
    UnfoldInv(s, st, st.drives[g].id);
    hide Inv, DriveStep, InOrder, LocksOk, Pushes;
    StrangerReturns(s.cfg, st.drives[g], st.docs, st.trace, a);
  }

  // Whatever happens afterwards, it stays there and is never pushed again: no
  // redrive brings it to an end.
  lemma {:induction false} StrandedForever(s: Setup, before: seq<Action>, more: seq<Action>, id: string)
    requires Stranded(Run(s, before), id)
    ensures Stranded(Run(s, before + more), id)
    ensures Stored(Run(s, before + more).docs, id) == Stored(Run(s, before).docs, id)
    ensures Pushes(id, Run(s, before + more).trace) == Pushes(id, Run(s, before).trace)
    decreases |more|
  {
    hide Stranded, Next, Inv, Pushes, Stored;
    if more == [] {
      assert before + more == before;
    } else {
      var front, last := more[..|more| - 1], more[|more| - 1];
      assert (before + more)[..|before + more| - 1] == before + front;
      StrandedForever(s, before, front, id);
      RunKeeps(s, before + front);
      StrandedStays(s, Run(s, before + front), last, id);
    }
  }

  // A crash between the save of CHART_COMPOSED and the push strands the
  // deployment.
  lemma {:induction false} CrashStrands(s: Setup, actions: seq<Action>, g: nat)
    requires g in Run(s, actions).drives
    requires Run(s, actions).drives[g].Driving? && Run(s, actions).drives[g].pc.Publishing?
    ensures
      var n, id := Run(s, actions + [Crash]), Run(s, actions).drives[g].id;
      Stranded(n, id) && FindByID(n.docs, id).value.status == ChartComposed
  {
    var st := Run(s, actions);
    assert (actions + [Crash])[..|actions|] == actions;
    RunKeeps(s, actions);
    hide Inv, FindByID, Next, Stranded;
    PublishingIsStored(s, st, g);
    CrashForgets(s, st, st.drives[g].id);
  }

  lemma CrashForgets(s: Setup, st: State, id: string)
    requires FindByID(st.docs, id).Ok?
    requires FindByID(st.docs, id).value.status == ChartComposed || FindByID(st.docs, id).value.status == Degraded
    ensures Stranded(Next(s, st, Crash), id) && Next(s, st, Crash).docs == st.docs
  {
    hide FindByID;
  }

  lemma {:induction false} PublishingIsStored(s: Setup, st: State, g: nat)
    requires Inv(s, st) && g in st.drives && st.drives[g].Driving? && st.drives[g].pc.Publishing?
    ensures
      var found := FindByID(st.docs, st.drives[g].id);
      found.Ok? && found.value.status == ChartComposed
  {
    hide Inv, FromDoc, RecordOk, InOrder, LocksOk, WellFormed, Evidence, ComposedFrom, Reaches, NothingCleared,
      Pushes, MetadataOf, BeyondPublish;
    UnfoldInv(s, st, st.drives[g].id);
  }

  // --- What can still be completed ---

  function Moves(g: nat, answers: seq<Answer>): seq<Action> {
    seq(|answers|, i requires 0 <= i < |answers| => Move(g, answers[i]))
  }

  // Undisturbed, a drive of the process is a run of the driver's machine.
  lemma {:induction false} MovesAreDriven(s: Setup, before: seq<Action>, g: nat, answers: seq<Answer>)
    requires g in Run(s, before).drives
    ensures
      var st := Run(s, before);
      var c := DriveRun(s.cfg, Conf(st.drives[g], st.docs, st.trace), answers);
      Run(s, before + Moves(g, answers)) == st.(docs := c.docs, drives := st.drives[g := c.drive], trace := c.trace)
    decreases |answers|
  {
    hide DriveStep, Admit, SaveAnswered;
    var st := Run(s, before);
    if answers == [] {
      assert before + Moves(g, answers) == before;
      assert st.drives[g := st.drives[g]] == st.drives;
    } else {
      var front, a := answers[..|answers| - 1], answers[|answers| - 1];
      var all := before + Moves(g, answers);
      assert all[..|all| - 1] == before + Moves(g, front) && all[|all| - 1] == Move(g, a);
      MovesAreDriven(s, before, g, front);
      var c := DriveRun(s.cfg, Conf(st.drives[g], st.docs, st.trace), front);
      var n := DriveStep(s.cfg, c, a);
      assert st.drives[g := c.drive][g := n.drive] == st.drives[g := n.drive];
    }
  }

  lemma {:induction false} LoadedOk(s: Setup, actions: seq<Action>, id: string)
    requires id in Run(s, actions).docs
    ensures
      var st := Run(s, actions);
      id in st.created && DeploymentOk(s.cfg, st.created[id].origin, Conf(Loading(id), st.docs, st.trace))
  {
    RunKeeps(s, actions);
    UnfoldInv(s, Run(s, actions), id);
    hide Inv, Run, InOrder, StoreOk, AllProper, Pushes, Authorized, ValidOrigin, Fresh;
  }

  // A stored deployment that is not terminal, and that no drive is at work on,
  // can still be completed by some continuation of the run if and only if it is
  // at neither of the two statuses no stage takes: a redrive resumes it, and
  // completes it when every call succeeds.
  lemma {:induction false} CompletableIff(s: Setup, actions: seq<Action>, id: string)
    requires FindByID(Run(s, actions).docs, id).Ok?
    requires !IsTerminal(FindByID(Run(s, actions).docs, id).value.status)
    requires forall g :: g in Run(s, actions).drives && Run(s, actions).drives[g].id == id ==>
      !Run(s, actions).drives[g].Driving?
    ensures
      var status := FindByID(Run(s, actions).docs, id).value.status;
      (exists more :: Completes(s, actions + more, id)) <==> status != ChartComposed && status != Degraded
  {
    var st := Run(s, actions);
    var status := FindByID(st.docs, id).value.status;
    hide Run, DriveRun, DeploymentOk;
    if status == ChartComposed || status == Degraded {
      forall more
        ensures !Completes(s, actions + more, id)
      {
        StrandedForever(s, actions, more, id);
      }
    } else {
      var more := Redriven(s, actions, id);
      assert Completes(s, actions + more, id);
    }
  }

  // So every accepted create that was saved can still be completed.
  lemma {:induction false} AcceptedCanComplete(s: Setup, actions: seq<Action>, branch: Option<Result<bool>>,
                                               cmd: Command,
                                               now: Timestamp, a: Answer)
    requires Admit(s.gates, branch, cmd, now).Ok? && a.ok
    requires Admit(s.gates, branch, cmd, now).value.id !in Run(s, actions).created
    ensures
      var d := Admit(s.gates, branch, cmd, now).value;
      var created := actions + [Create(branch, cmd, now, a)];
      && FindByID(Run(s, created).docs, d.id) == Ok(d) && d.status == Received
      && exists more :: Completes(s, created + more, d.id)
  {
    var d := Admit(s.gates, branch, cmd, now).value;
    var created := actions + [Create(branch, cmd, now, a)];
    hide Inv, Admit, FindByID, Run, Next;
    OneMoreAction(s, actions, Create(branch, cmd, now, a));
    RunKeeps(s, actions);
    AcceptedIsStored(s, Run(s, actions), branch, cmd, now, a);
    var more := Redriven(s, created, d.id);
    assert Completes(s, created + more, d.id);
  }

  // But it can be stranded as well, at either status: every call of its drive
  // succeeds, and the process crashes in front of the push; or the application
  // is polled as degraded, and it crashes once DEGRADED is saved.
  lemma {:induction false} AcceptedCanStrand(s: Setup, actions: seq<Action>, branch: Option<Result<bool>>,
                                             cmd: Command,
                                             now: Timestamp, a: Answer)
    requires Admit(s.gates, branch, cmd, now).Ok? && a.ok
    requires Admit(s.gates, branch, cmd, now).value.id !in Run(s, actions).created
    ensures
      var id := Admit(s.gates, branch, cmd, now).value.id;
      var created := actions + [Create(branch, cmd, now, a)];
      && (exists more :: StrandedAt(s, created + more, id, ChartComposed))
      && (exists more :: StrandedAt(s, created + more, id, Degraded))
  {
    var id := Admit(s.gates, branch, cmd, now).value.id;
    var created := actions + [Create(branch, cmd, now, a)];
    hide Admit, Run, StrandedAt;
    AcceptedCanComplete(s, actions, branch, cmd, now, a);
    var unpushed := StrandingComposed(s, created, id);
    assert StrandedAt(s, created + unpushed, id, ChartComposed);
    var degraded := StrandingDegraded(s, created, id);
    assert StrandedAt(s, created + degraded, id, Degraded);
  }

  ghost predicate StrandedAt(s: Setup, actions: seq<Action>, id: string, status: Status) {
    Stranded(Run(s, actions), id) && FindByID(Run(s, actions).docs, id).value.status == status
  }

  lemma {:induction false} StrandingComposed(s: Setup, actions: seq<Action>, id: string) returns (more: seq<Action>)
    requires FindByID(Run(s, actions).docs, id).Ok? && FindByID(Run(s, actions).docs, id).value.status == Received
    ensures StrandedAt(s, actions + more, id, ChartComposed)
  {
    hide Run, DriveRun, FindByID, DeploymentOk, Good, Stranded;
    var good := SomeGood();
    var answers := seq(7, i => good);
    var o, c := Restart(s, actions, id, answers);
    GoodDrive(s.cfg, o, c, answers);
    DriveKeeps(s.cfg, o, c, answers);
    var redriven := actions + Redrives(id, answers);
    CrashStrands(s, redriven, 0);
    more := Redrives(id, answers) + [Crash];
    assert actions + more == redriven + [Crash];
  }

  lemma {:induction false} StrandingDegraded(s: Setup, actions: seq<Action>, id: string) returns (more: seq<Action>)
    requires FindByID(Run(s, actions).docs, id).Ok? && FindByID(Run(s, actions).docs, id).value.status == Received
    ensures StrandedAt(s, actions + more, id, Degraded)
  {
    hide Run, DriveRun, DriveStep, FindByID, DeploymentOk, Good, Stranded, Next;
    var good := SomeGood();
    var goods := seq(14, i => good);
    var poll := good.(status := ArgoStatus("", "Degraded", ""));
    var answers := goods + [poll, good, good];
    var o, c := Restart(s, actions, id, answers);
    GoodDrive(s.cfg, o, c, goods);
    DriveKeeps(s.cfg, o, c, goods);
    GoodIsOk(good);
    DegradedIsStored(s.cfg, o, DriveRun(s.cfg, c, goods), poll, good);
    ThreeMore(s.cfg, c, goods, poll, good);
    var redriven := actions + Redrives(id, answers);
    more := Redrives(id, answers) + [Crash];
    assert actions + more == redriven + [Crash];
    CrashForgets(s, Run(s, redriven), id);
    OneMoreAction(s, redriven, Crash);
  }

  lemma ThreeMore(cfg: Config, c: Conf, answers: seq<Answer>, a: Answer, b: Answer)
    ensures
      var polled := DriveStep(cfg, DriveRun(cfg, c, answers), a);
      DriveRun(cfg, c, answers + [a, b, b]) == DriveStep(cfg, DriveStep(cfg, polled, b), b)
  {
    hide DriveRun, DriveStep;
    assert answers + [a, b, b] == answers + [a] + [b] + [b];
    RunGrows(cfg, c, answers, a);
    RunGrows(cfg, c, answers + [a], b);
    RunGrows(cfg, c, answers + [a] + [b], b);
  }

  lemma OneMoreAction(s: Setup, actions: seq<Action>, action: Action)
    ensures Run(s, actions + [action]) == Next(s, Run(s, actions), action)
  {
    hide Next;
    assert (actions + [action])[..|actions|] == actions;
  }

  // And it can end COMPLETED with an error: every call succeeds but the completing
  // save, and the save of that failure goes through.
  lemma {:induction false} AcceptedCanErr(s: Setup, actions: seq<Action>, branch: Option<Result<bool>>, cmd: Command,
                                          now: Timestamp, a: Answer)
    requires Admit(s.gates, branch, cmd, now).Ok? && a.ok
    requires Admit(s.gates, branch, cmd, now).value.id !in Run(s, actions).created
    ensures
      var id := Admit(s.gates, branch, cmd, now).value.id;
      exists more :: CompletedInError(Run(s, actions + [Create(branch, cmd, now, a)] + more).docs, id)
  {
    var id := Admit(s.gates, branch, cmd, now).value.id;
    var created := actions + [Create(branch, cmd, now, a)];
    hide Admit, Run, CompletedInError;
    AcceptedCanComplete(s, actions, branch, cmd, now, a);
    var more := Erring(s, created, id);
    assert CompletedInError(Run(s, created + more).docs, id);
  }

  lemma {:induction false} Erring(s: Setup, actions: seq<Action>, id: string) returns (more: seq<Action>)
    requires FindByID(Run(s, actions).docs, id).Ok? && FindByID(Run(s, actions).docs, id).value.status == Received
    ensures CompletedInError(Run(s, actions + more).docs, id)
  {
    hide Run, DriveRun, FindByID, DeploymentOk, Good, Redrives;
    var good := SomeGood();
    var goods := seq(17, i => good);
    var answers := goods + [good.(ok := false), good];
    var o, c := Restart(s, actions, id, answers);
    GoodDrive(s.cfg, o, c, goods);
    assert answers[..17] == goods;
    assert CompletionLost(s.cfg, c, answers, 18) by { GoodIsOk(good); }
    CompletedInErrorIff(s.cfg, o, c, answers);
    more := Redrives(id, answers);
  }

  lemma {:induction false} AcceptedIsStored(s: Setup, st: State, branch: Option<Result<bool>>, cmd: Command,
                                            now: Timestamp,
                                            a: Answer)
    requires Inv(s, st) && Admit(s.gates, branch, cmd, now).Ok? && a.ok
    requires Admit(s.gates, branch, cmd, now).value.id !in st.created
    ensures
      var d := Admit(s.gates, branch, cmd, now).value;
      FindByID(Next(s, st, Create(branch, cmd, now, a)).docs, d.id) == Ok(d) && d.status == Received
  {
    var d := Admit(s.gates, branch, cmd, now).value;
    hide Inv, Admit, FindByID, FromDoc, InOrder, LocksOk, ActiveOk, Pushes, R.NeverSets, AllowlistAdmits,
      Authorized, BuildAll;
    UnfoldInv(s, st, d.id);
    AdmittedIsSound(s.gates, branch, cmd, now);
    SaveThenFind(st.docs, d);
  }

  ghost predicate Completes(s: Setup, actions: seq<Action>, id: string) {
    var found := FindByID(Run(s, actions).docs, id);
    found.Ok? && found.value.status == Completed
  }

  // A continuation that completes it: the process restarts, and a drive finds
  // every call succeeding.
  lemma {:induction false} Redriven(s: Setup, actions: seq<Action>, id: string) returns (more: seq<Action>)
    requires FindByID(Run(s, actions).docs, id).Ok? && !IsTerminal(FindByID(Run(s, actions).docs, id).value.status)
    requires
      var status := FindByID(Run(s, actions).docs, id).value.status;
      status != ChartComposed && status != Degraded
    ensures Completes(s, actions + more, id)
  {
    hide Run, DriveRun, FindByID, DeploymentOk, Good;
    var good := SomeGood();
    var answers := seq(18, i => good);
    var o, c := Restart(s, actions, id, answers);
    RedriveCompletes(s.cfg, o, c, answers);
    more := Redrives(id, answers);
  }

  // A crash, and then an undisturbed redrive with these answers.
  function Redrives(id: string, answers: seq<Answer>): seq<Action> {
    [Crash, Begin(0, id)] + Moves(0, answers)
  }

  // It is a run of the driver's machine on the stored record.
  lemma {:induction false} Restart(s: Setup, actions: seq<Action>, id: string, answers: seq<Answer>)
    returns (o: Origin, c: Conf)
    requires FindByID(Run(s, actions).docs, id).Ok?
    ensures c.drive == Loading(id) && c.docs == Run(s, actions).docs && DeploymentOk(s.cfg, o, c)
    ensures
      var n, ran := Run(s, actions + Redrives(id, answers)), DriveRun(s.cfg, c, answers);
      n.docs == ran.docs && 0 in n.drives && n.drives[0] == ran.drive
  {
    hide Run, DriveRun, FindByID, DeploymentOk;
    var begun := actions + [Crash, Begin(0, id)];
    var st := Run(s, begun);
    Restarted(s, actions, id);
    FoundIsStored(st.docs, id);
    LoadedOk(s, begun, id);
    o, c := st.created[id].origin, Conf(Loading(id), st.docs, st.trace);
    MovesAreDriven(s, begun, 0, answers);
    assert actions + Redrives(id, answers) == begun + Moves(0, answers);
  }

  lemma FoundIsStored(docs: Docs, id: string)
    requires FindByID(docs, id).Ok?
    ensures id in docs
  {
  }

  lemma {:induction false} Restarted(s: Setup, actions: seq<Action>, id: string)
    ensures
      var st, n := Run(s, actions), Run(s, actions + [Crash, Begin(0, id)]);
      n.docs == st.docs && 0 in n.drives && n.drives[0] == Loading(id)
  {
    var crashed := actions + [Crash];
    var begun := actions + [Crash, Begin(0, id)];
    assert begun[..|begun| - 1] == crashed && crashed[..|crashed| - 1] == actions;
  }

  // --- The outside ---

  // Publish is called at most once for a deployment, over any number of crashes
  // and redrives, whatever it and the saves around it answer.
  lemma {:induction false} PublishedAtMostOnce(s: Setup, actions: seq<Action>, id: string)
    ensures Pushes(id, Run(s, actions).trace) <= 1
  {
    RunKeeps(s, actions);
    UnfoldInv(s, Run(s, actions), id);
    hide Inv, Run, InOrder, Pushes, StoreOk, CreatedOk, AllProper;
  }

  // Each application is created from a successful push, and its repository,
  // chart and version reassemble exactly the reference pushed; each sync and
  // each poll follows a success of the step before it on the same application.
  lemma {:induction false} EffectsComeInOrder(s: Setup, actions: seq<Action>)
    ensures InOrder(Run(s, actions).trace)
  {
    RunKeeps(s, actions);
    UnfoldInv(s, Run(s, actions), "");
    hide Inv, Run, InOrder;
  }

  // Whatever is done outside is done for a deployment that was created, and for
  // its own application: pushed to its own reference, applied under its name in
  // its project and namespace, synced and polled under that name.
  lemma {:induction false} EffectsAreProper(s: Setup, actions: seq<Action>, i: nat)
    requires i < |Run(s, actions).trace|
    ensures
      var st := Run(s, actions);
      var e := st.trace[i];
      e.id in st.created && Proper(s.cfg, st.created[e.id].origin, e, st.trace[..i])
  {
    RunKeeps(s, actions);
    UnfoldInv(s, Run(s, actions), Run(s, actions).trace[i].id);
    hide Inv, Run, InOrder, StoreOk, Proper, CreatedOk, Pushes;
  }

  // What the last successful resolve before the effect i returned for its
  // deployment.
  function ResolvedFor(st: State, i: nat): ResolvedChart
    requires i < |st.trace|
  {
    match LastResolved(st.trace[i].id, st.trace[..i])
    case Some(r) => r
    case None => ResolvedChart("", None, "")
  }

  // Every chart pushed is the one that was resolved last for its deployment, with
  // nothing of it lost: its values are the resolved ones under the overlay the
  // deployment was created with and under the platform's, and its version names
  // the version resolved, the start and the commit.
  lemma {:induction false} PushedIsResolved(s: Setup, actions: seq<Action>, i: nat)
    requires i < |Run(s, actions).trace| && Run(s, actions).trace[i].Pushed?
    ensures
      var st := Run(s, actions);
      var e, r := st.trace[i], ResolvedFor(st, i);
      && e.id in st.created && LastResolved(e.id, st.trace[..i]) == Some(r)
      && var o := st.created[e.id].origin;
      && r.archive == Some(e.pkg.chart) && PlatformValues(o, r.appValuesKey).Ok?
      && e.pkg.appValuesKey == r.appValuesKey
      && e.pkg.values == Merge3(r.archive.value.values, o.values, PlatformValues(o, r.appValuesKey).value)
      && e.pkg.version ==
           r.version + "-" + o.startedAt.day + o.startedAt.clock + "-" + o.source.gitSHA[..7]
  {
    EffectsAreProper(s, actions, i);
    hide Run, LastResolved, Merge3, PlatformValues, IsNamed;
  }

  // Every chart pushed for a deployment that declared a database provisions
  // exactly that database for its team and environment on the platform's engine,
  // named by the application id and bound under that name, with the size,
  // version and storage that were authorized for its environment, whatever the
  // chart and the overlay hold.
  lemma {:induction false} PushedAsAuthorized(s: Setup, actions: seq<Action>, i: nat)
    requires i < |Run(s, actions).trace| && Run(s, actions).trace[i].Pushed?
    ensures
      var st := Run(s, actions);
      var e, key := st.trace[i], ResolvedFor(st, i).appValuesKey;
      && e.id in st.created
      && var o := st.created[e.id].origin;
      && Authorized(s.gates.resourcePolicy, o.resources, o.target.environment)
      && (o.resources != [] && key != "sqldatabase" ==>
            |o.resources| == 1 && Provisions(e.pkg.values, key, o, o.resources[0]))
  {
    var st := Run(s, actions);
    var e := st.trace[i];
    hide Inv, Run, InOrder, StoreOk, Merge3, Authorized, Provisions, NewResource, AllProper, ResolvedFor,
      LastResolved;
    RunKeeps(s, actions);
    UnfoldInv(s, st, e.id);
    PushedIsResolved(s, actions, i);
    var o, r := st.created[e.id].origin, ResolvedFor(st, i);
    if o.resources != [] && r.appValuesKey != "sqldatabase" {
      OneDatabaseOneName(o, r.appValuesKey, r.archive.value.values, o.values);
      LayerOfOne(o, r.appValuesKey);
    }
  }

  // At every path the platform owns, the overlay has no say in any chart pushed:
  // there stands what the resolved chart and the platform's layer give without
  // it, or the layer alone where the overlay erased the chart's default; under
  // the SQL block it cannot even erase.
  lemma {:induction false} PushedKeepsReserved(s: Setup, actions: seq<Action>, i: nat, path: Path)
    requires i < |Run(s, actions).trace| && Run(s, actions).trace[i].Pushed? && R.IsReserved(path)
    ensures
      var st := Run(s, actions);
      var e, r := st.trace[i], ResolvedFor(st, i);
      && e.id in st.created && r.archive.Some?
      && var o, chart := st.created[e.id].origin, r.archive.value.values;
      && PlatformValues(o, r.appValuesKey).Ok?
      && var layer := PlatformValues(o, r.appValuesKey).value;
      && Lookup(e.pkg.values, path) == Lookup(if Cut(Map(o.values), path) then layer else Merge(chart, layer), path)
      && (path[0] == "sqldatabase" ==> !Cut(Map(o.values), path))
      && (o.resources == [] ==> Lookup(e.pkg.values, path) == None || Lookup(e.pkg.values, path) == Lookup(chart, path))
  {
    var st := Run(s, actions);
    var e := st.trace[i];
    hide Inv, Run, InOrder, StoreOk, Merge3, Authorized, NewResource, AllProper, R.NeverSets, R.TouchesReserved,
      R.IsReserved, Cut, Merge, ResolvedFor, LastResolved;
    RunKeeps(s, actions);
    UnfoldInv(s, st, e.id);
    PushedIsResolved(s, actions, i);
    var o, r := st.created[e.id].origin, ResolvedFor(st, i);
    R.AcceptsIffNeverSets(o.values);
    R.ReservedIsPlatforms(r.archive.value.values, o.values, PlatformValues(o, r.appValuesKey).value, path);
    MergeIdentity(r.archive.value.values);
  }

  // Every chart pushed holds the whole platform layer: each non-map of it stands
  // there unchanged.
  lemma {:induction false} PushedHoldsLayer(s: Setup, actions: seq<Action>, i: nat, path: Path)
    requires i < |Run(s, actions).trace| && Run(s, actions).trace[i].Pushed?
    ensures
      var st := Run(s, actions);
      var e, key := st.trace[i], ResolvedFor(st, i).appValuesKey;
      && e.id in st.created && PlatformValues(st.created[e.id].origin, key).Ok?
      && var layer := PlatformValues(st.created[e.id].origin, key).value;
      Lookup(layer, path).Some? && !Lookup(layer, path).value.Map? ==>
        Lookup(e.pkg.values, path) == Lookup(layer, path)
  {
    hide Run, Merge3, PlatformValues, Lookup, ResolvedFor, LastResolved;
    PushedIsResolved(s, actions, i);
    var st := Run(s, actions);
    var o, r := st.created[st.trace[i].id].origin, ResolvedFor(st, i);
    var layer := PlatformValues(o, r.appValuesKey).value;
    if Lookup(layer, path).Some? && !Lookup(layer, path).value.Map? {
      PlatformLeafWins(r.archive.value.values, o.values, layer, path);
    }
  }

  // With an enforcing allowlist, every chart pushed keeps what the resolved chart
  // holds at each path that no allowed entry of the environment is related to
  // and the platform's blocks leave alone. Only below an empty key that the
  // overlay itself has at its top is nothing promised.
  lemma {:induction false} PushedWithinAllowlist(s: Setup, actions: seq<Action>, i: nat, path: Path)
    requires s.gates.allowlist.Some? && s.gates.allowlist.value.enforce
    requires i < |Run(s, actions).trace| && Run(s, actions).trace[i].Pushed?
    requires Apart(path, ResolvedFor(Run(s, actions), i).appValuesKey)
    ensures
      var st := Run(s, actions);
      var e, r := st.trace[i], ResolvedFor(st, i);
      && e.id in st.created && r.archive.Some?
      && var o := st.created[e.id].origin;
      (path[0] != "" || "" !in o.values)
      && W.Unrelated(Dotted(path), W.KeysFor(s.gates.allowlist.value, o.target.environment)) ==>
        Lookup(e.pkg.values, path) == Lookup(r.archive.value.values, path)
  {
    var st := Run(s, actions);
    var e := st.trace[i];
    hide Inv, Run, InOrder, StoreOk, Authorized, W.NoViolations, W.Unrelated, W.KeysFor, PlatformValues, Apart,
      R.NeverSets, Pushes, ResolvedFor, LastResolved;
    RunKeeps(s, actions);
    UnfoldInv(s, st, e.id);
    PushedIsResolved(s, actions, i);
    var o, r := st.created[e.id].origin, ResolvedFor(st, i);
    var allowed, chart := W.KeysFor(s.gates.allowlist.value, o.target.environment), r.archive.value.values;
    LayerLeavesRest(o, r.appValuesKey, Merge(chart, o.values), path);
    assert path != [] by { ApartIsNotRoot(path, r.appValuesKey); }
    if W.Unrelated(Dotted(path), allowed) {
      if path[0] != "" {
        W.OverlayIsBounded(chart, o.values, allowed, path);
      } else if "" !in o.values {
        W.OverlayIsBoundedEverywhere(chart, o.values, allowed, path);
      }
    }
  }

  lemma ApartIsNotRoot(path: Path, appValuesKey: string)
    requires Apart(path, appValuesKey)
    ensures path != []
  {
  }
}
